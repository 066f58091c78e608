/** The Mongoose `Conversation` model: the per-sender record of turns, the
    schema's validity constraints, and the pre-save hook that stamps
    `updatedAt`. */
module ConversationModel {
  import opened Wrappers

  /** One entry of `messages`. */
  datatype Turn = Turn(kind: string, input: string, response: string, timestamp: int)

  /** The `enum` of a turn's `type`. */
  const TURN_KINDS: set<string> := {"text", "voice", "audio"}

  /** A turn the schema accepts: a known type, and the required strings
      non-empty (Mongoose rejects the empty string for `required`). */
  predicate ValidTurn(t: Turn) {
    t.kind in TURN_KINDS && t.input != [] && t.response != []
  }

  /** A stored conversation document. */
  datatype ConversationRecord = ConversationRecord(
    psychologistId: string,
    messages: seq<Turn>,
    createdAt: int,
    updatedAt: int)

  /** A document the schema accepts: `psychologistId` present and every
      turn valid. */
  predicate ValidRecord(r: ConversationRecord) {
    r.psychologistId != [] && forall i :: 0 <= i < |r.messages| ==> ValidTurn(r.messages[i])
  }

  /** Appending a valid turn to a valid document keeps it valid, and keeps
      the earlier turns as they were. */
  lemma AppendKeepsValid(r: ConversationRecord, t: Turn)
    requires ValidRecord(r) && ValidTurn(t)
    ensures ValidRecord(r.(messages := r.messages + [t]))
    ensures r.messages <= r.(messages := r.messages + [t]).messages
  {
    var m := r.messages + [t];
    forall i | 0 <= i < |m| ensures ValidTurn(m[i]) {
      if i < |r.messages| {
        assert m[i] == r.messages[i];
      }
    }
  }

  /** A conversation document being edited in memory. */
  class Conversation {
    var psychologistId: string
    var messages: seq<Turn>
    var createdAt: int
    var updatedAt: int

    /** The document's current field values. */
    function Record(): ConversationRecord
      reads this
    {
      ConversationRecord(psychologistId, messages, createdAt, updatedAt)
    }

    /** `new Conversation({ psychologistId, messages: [] })`: both dates
        default to the current time. */
    constructor (psychologistId: string, now: int)
      ensures Record() == ConversationRecord(psychologistId, [], now, now)
    {
      this.psychologistId := psychologistId;
      messages := [];
      createdAt := now;
      updatedAt := now;
    }

    /** A document as `findOne` returns it. */
    constructor Load(r: ConversationRecord)
      ensures Record() == r
    {
      psychologistId := r.psychologistId;
      messages := r.messages;
      createdAt := r.createdAt;
      updatedAt := r.updatedAt;
    }

    /** `conversation.messages.push(turn)`. */
    method PushMessage(t: Turn)
      modifies this`messages
      ensures messages == old(messages) + [t]
      ensures Record() == old(Record()).(messages := old(messages) + [t])
    {
      messages := messages + [t];
    }

    /** `conversation.save()`: validation runs first; a valid document gets
        `updatedAt` set to the save time by the pre-save hook and is
        returned as stored, an invalid one is refused and left as it was. */
    method Save(now: int) returns (stored: Option<ConversationRecord>)
      modifies this`updatedAt
      ensures stored.Some? <==> ValidRecord(old(Record()))
      ensures stored.Some? ==> Record() == old(Record()).(updatedAt := now) && stored.value == Record()
      ensures stored.None? ==> Record() == old(Record())
    {
      if ValidRecord(Record()) {
        updatedAt := now;
        stored := Some(Record());
      } else {
        stored := None;
      }
    }
  }
}
