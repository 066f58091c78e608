/** `AIService`: the per-sender profile store and reply generation used by
    the api/whatsapp.js router. */
module AiService {
  import opened Wrappers
  import opened Onboarding
  import opened Effects
  import opened Generation

  class AIService {
    /** The master prompt; its content is opaque to the router. */
    const masterPrompt: string
    /** `this.psychologistInfo`: sender id to stored profile. */
    var psychologistInfo: map<string, Profile>

    constructor (masterPrompt: string)
      ensures this.masterPrompt == masterPrompt
      ensures psychologistInfo == map[]
    {
      this.masterPrompt := masterPrompt;
      psychologistInfo := map[];
    }

    /** `generateResponse(userInput, inputType, psychologistId)`. The input
        type is accepted and never used. */
    function GenerateResponse(userInput: string, inputType: string, psychologistId: Option<string>,
                              complete: CompletionRequest -> Option<string>): (g: Generation)
      reads this
      ensures g.request.None? <==> AwaitsProfile(psychologistInfo, psychologistId)
      ensures g.request.Some? ==>
        g.request.value == CompletionRequest(SystemPrompt(masterPrompt, SERVICE_INDENT, psychologistInfo, psychologistId),
                                             userInput, MAX_TOKENS)
    {
      Respond(masterPrompt, SERVICE_INDENT, psychologistInfo, userInput, psychologistId, complete)
    }

    /** `savePsychologistInfo`: set (or overwrite) the entry for the id and
        return the confirmation. */
    method SavePsychologistInfo(psychologistId: string, name: string, specialty: string, orientation: string)
      returns (r: string)
      modifies this
      ensures psychologistInfo == old(psychologistInfo)[psychologistId := Profile(name, specialty, orientation)]
      ensures r == CONFIRMATION
    {
      psychologistInfo := psychologistInfo[psychologistId := Profile(name, specialty, orientation)];
      r := CONFIRMATION;
    }
  }

  /** The store after a series of saves, the latest last. */
  function Replay(info: map<string, Profile>, saves: seq<(string, Profile)>): map<string, Profile>
    decreases |saves|
  {
    if saves == [] then info
    else
      var last := saves[|saves| - 1];
      Replay(info, saves[..|saves| - 1])[last.0 := last.1]
  }

  /** Entries are never removed: an id stored before a series of saves is
      still stored after it, and the keys only grow. */
  lemma {:induction false} ReplayKeepsKeys(info: map<string, Profile>, saves: seq<(string, Profile)>)
    ensures info.Keys <= Replay(info, saves).Keys
    ensures forall i :: 0 <= i < |saves| ==> saves[i].0 in Replay(info, saves)
    decreases |saves|
  {
    if saves != [] {
      var prefix := saves[..|saves| - 1];
      ReplayKeepsKeys(info, prefix);
      forall i | 0 <= i < |saves| ensures saves[i].0 in Replay(info, saves) {
        if i < |saves| - 1 {
          assert saves[i] == prefix[i];
        }
      }
    }
  }

  /** An id no save named keeps its original entry (or stays absent), and
      the final save's profile is stored under its id. */
  lemma {:induction false} ReplayLatestWins(info: map<string, Profile>, saves: seq<(string, Profile)>, id: string)
    ensures (forall i :: 0 <= i < |saves| ==> saves[i].0 != id) ==>
      (id in Replay(info, saves) <==> id in info) && (id in info ==> Replay(info, saves)[id] == info[id])
    ensures |saves| > 0 && saves[|saves| - 1].0 == id ==> Replay(info, saves)[id] == saves[|saves| - 1].1
    decreases |saves|
  {
    ReplayKeepsKeys(info, saves);
    if saves != [] {
      var prefix := saves[..|saves| - 1];
      ReplayLatestWins(info, prefix, id);
      if forall i :: 0 <= i < |saves| ==> saves[i].0 != id {
        assert forall i :: 0 <= i < |prefix| ==> prefix[i].0 != id by {
          forall i | 0 <= i < |prefix| ensures prefix[i].0 != id {
            assert prefix[i] == saves[i];
          }
        }
      }
    }
  }

  /** The general form: when save `j` names `id` and no later save does,
      `id` holds the profile of save `j`, whatever saves of other ids come
      after it. */
  lemma {:induction false} ReplayLatestSaveWins(info: map<string, Profile>, saves: seq<(string, Profile)>,
                                                 id: string, j: nat)
    requires j < |saves| && saves[j].0 == id
    requires forall k :: j < k < |saves| ==> saves[k].0 != id
    ensures id in Replay(info, saves) && Replay(info, saves)[id] == saves[j].1
    decreases |saves|
  {
    var prefix := saves[..|saves| - 1];
    if j < |saves| - 1 {
      assert prefix[j] == saves[j];
      forall k | j < k < |prefix| ensures prefix[k].0 != id {
        assert prefix[k] == saves[k];
      }
      ReplayLatestSaveWins(info, prefix, id, j);
    }
  }

  /** Saving the same triple twice leaves the store as saving it once, and a
      second save with new values overwrites the first. */
  lemma SaveIdempotentAndOverwrites(info: map<string, Profile>, id: string, p: Profile, q: Profile)
    ensures Replay(info, [(id, p), (id, p)]) == Replay(info, [(id, p)])
    ensures Replay(info, [(id, p), (id, q)]) == info[id := q]
  {
    assert [(id, p), (id, p)][..1] == [(id, p)];
    assert [(id, p), (id, q)][..1] == [(id, p)];
    assert [(id, p)][..0] == [];
  }

  /** After any series of saves that names an id, generation for that id
      is never short-circuited to the welcome text. */
  lemma SavedSenderIsNeverWelcomed(ai: AIService, saves: seq<(string, Profile)>, i: nat, userInput: string,
                                   inputType: string, complete: CompletionRequest -> Option<string>)
    requires i < |saves|
    requires ai.psychologistInfo == Replay(map[], saves)
    ensures ai.GenerateResponse(userInput, inputType, Some(saves[i].0), complete).request.Some?
  {
    ReplayKeepsKeys(map[], saves);
  }

  /** `inputType` has no effect on the result. */
  lemma InputTypeIsIgnored(ai: AIService, userInput: string, t1: string, t2: string, id: Option<string>,
                           complete: CompletionRequest -> Option<string>)
    ensures ai.GenerateResponse(userInput, t1, id, complete) == ai.GenerateResponse(userInput, t2, id, complete)
  {
  }
}
