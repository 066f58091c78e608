/** The onboarding rules shared by both webhook routers: when a text counts as
    a profile message, and how the three profile fields are taken out of it
    with the case-insensitive regular expressions `soy\s+([^,]+)`,
    `especialidad\s+([^,]+)` and `orientación\s+([^,]+)`. */
module Onboarding {
  import opened Wrappers
  import opened Text

  /** What the store keeps per sender. */
  datatype Profile = Profile(name: string, specialty: string, orientation: string)

  const SOY: string := "soy"
  const ESPECIALIDAD: string := "especialidad"
  const ORIENTACION: string := "orientación"

  /** Reply after a profile was stored. */
  const CONFIRMATION: string :=
    "Información guardada correctamente. A partir "
    + "de ahora, todas mis respuestas estarán adaptadas "
    + "a tu perfil profesional."

  /** Reply when a profile message lacks one of the three fields. */
  const FORMAT_INSTRUCTION: string :=
    "Por favor, proporciona la información en "
    + "el formato: \"Soy [Nombre], especialidad "
    + "[Clínica/Educativa/Laboral/Jurídica], orientación "
    + "[TCC/ACT/Psicodinámica/Sistémica/Humanista/Integrativa]\""

  /** The routers' test: the lower-cased text contains "soy" and also
    "especialidad" or "orientación". */
  predicate IsOnboardingText(text: string) {
    var lower := LowerStr(text);
    Contains(lower, SOY) && (Contains(lower, ESPECIALIDAD) || Contains(lower, ORIENTACION))
  }

  /** A text that names the sender but neither marker is not an onboarding
      text: it goes to the generator. */
  lemma SoyAloneIsNotOnboarding()
    ensures !IsOnboardingText("Soy Juan")
  {
  }

  // ---------------------------------------------------------------------------
  // The regular expression `marker\s+([^,]+)` with the `i` flag, as the
  // JavaScript engine runs it: try each start position from the left; at a
  // position, `\s+` first takes every white-space character and gives them
  // back one at a time until `[^,]+` (greedy) can take at least one character.
  // ---------------------------------------------------------------------------

  /** The marker occurs at `i`, compared without regard to case. */
  predicate MarkerAt(s: string, marker: string, i: nat) {
    i + |marker| <= |s| && forall k :: 0 <= k < |marker| ==> Lower(s[i + k]) == Lower(marker[k])
  }

  /** Length of the white-space run that starts at `p` (what greedy `\s+` takes). */
  function SpaceRun(s: string, p: nat): (n: nat)
    requires p <= |s|
    ensures p + n <= |s|
    ensures forall k :: p <= k < p + n ==> IsJsSpace(s[k])
    ensures p + n == |s| || !IsJsSpace(s[p + n])
    decreases |s| - p
  {
    if p < |s| && IsJsSpace(s[p]) then 1 + SpaceRun(s, p + 1) else 0
  }

  /** End of the comma-free run that starts at `p` (what greedy `[^,]+` takes). */
  function NonCommaEnd(s: string, p: nat): (q: nat)
    requires p <= |s|
    ensures p <= q <= |s|
    ensures forall k :: p <= k < q ==> s[k] != ','
    ensures q == |s| || s[q] == ','
    decreases |s| - p
  {
    if p < |s| && s[p] != ',' then NonCommaEnd(s, p + 1) else p
  }

  /** Backtracking of `\s+([^,]+)` at `p` while `\s+` holds `k` characters:
      the capture group if the rest of the pattern succeeds. */
  function TryGroup(s: string, p: nat, k: nat): Option<string>
    requires p + k <= |s|
    decreases k
  {
    if k == 0 then None
    else if p + k < |s| && s[p + k] != ',' then Some(s[p + k..NonCommaEnd(s, p + k)])
    else TryGroup(s, p, k - 1)
  }

  /** The match attempt at start position `i`. */
  function MatchAt(s: string, marker: string, i: nat): Option<string> {
    if MarkerAt(s, marker, i) then
      var p := i + |marker|;
      TryGroup(s, p, SpaceRun(s, p))
    else
      None
  }

  /** The first match at a start position `i` or later. */
  function MatchFrom(s: string, marker: string, i: nat): Option<string>
    decreases |s| - i
  {
    if |s| < i + |marker| then None
    else
      match MatchAt(s, marker, i)
      case Some(c) => Some(c)
      case None => MatchFrom(s, marker, i + 1)
  }

  /** `text.match(/marker\s+([^,]+)/i)?.[1]`. */
  function Capture(s: string, marker: string): Option<string> {
    MatchFrom(s, marker, 0)
  }

  // ---------------------------------------------------------------------------
  // A reference description of the same matches without backtracking.
  // ---------------------------------------------------------------------------

  /** The pattern can start at `i`: the marker, one white-space character,
      then a character that is not a comma. */
  predicate MatchesAt(s: string, marker: string, i: nat) {
    MarkerAt(s, marker, i) && i + |marker| + 1 < |s|
    && IsJsSpace(s[i + |marker|]) && s[i + |marker| + 1] != ','
  }

  /** The leftmost position from `from` on where the pattern can start. */
  function Leftmost(s: string, marker: string, from: nat): (r: Option<nat>)
    ensures r.Some? ==> from <= r.value && MatchesAt(s, marker, r.value)
    ensures r.Some? ==> forall j :: from <= j < r.value ==> !MatchesAt(s, marker, j)
    ensures r.None? ==> forall j: nat :: from <= j ==> !MatchesAt(s, marker, j)
    decreases |s| - from
  {
    if |s| < from + |marker| then None
    else if MatchesAt(s, marker, from) then Some(from)
    else Leftmost(s, marker, from + 1)
  }

  /** The text after the first white-space character that follows the
      marker at `i`, up to the next comma or the end. */
  function RunAfter(s: string, marker: string, i: nat): string
    requires MatchesAt(s, marker, i)
  {
    s[i + |marker| + 1..NonCommaEnd(s, i + |marker| + 1)]
  }

  /** Over a comma-free stretch the comma-free run ends at the same place. */
  lemma SameNonCommaEnd(s: string, a: nat, b: nat)
    requires a <= b <= |s|
    requires forall k :: a <= k < b ==> s[k] != ','
    ensures NonCommaEnd(s, a) == NonCommaEnd(s, b)
  {
  }

  /** White space between `a` and `b` changes neither where the comma-free
      run ends nor what it trims to. */
  lemma SpacesBeforeRun(s: string, a: nat, b: nat)
    requires a <= b <= |s|
    requires forall k :: a <= k < b ==> IsJsSpace(s[k])
    ensures NonCommaEnd(s, a) == NonCommaEnd(s, b)
    ensures Trim(s[b..NonCommaEnd(s, b)]) == Trim(s[a..NonCommaEnd(s, a)])
  {
    SameNonCommaEnd(s, a, b);
    TrimSkipsSpaceSlice(s, a, b, NonCommaEnd(s, b));
  }

  /** A comma-free run holds no comma and, when it starts on a non-comma, is not empty. */
  lemma RunHasNoComma(s: string, p: nat)
    requires p < |s| && s[p] != ','
    ensures s[p..NonCommaEnd(s, p)] != [] && ',' !in s[p..NonCommaEnd(s, p)]
  {
    var c := s[p..NonCommaEnd(s, p)];
    forall k | 0 <= k < |c| ensures c[k] != ',' {
      assert c[k] == s[p + k];
    }
  }

  /** `\s+` keeps its whole run and `[^,]+` takes the non-comma text after it. */
  lemma TryGroupWholeRun(s: string, p: nat, w: nat)
    requires p <= |s| && w == SpaceRun(s, p) && w >= 1 && p + w < |s| && s[p + w] != ','
    ensures TryGroup(s, p, w) == Some(s[p + w..NonCommaEnd(s, p + w)])
    ensures s[p + w..NonCommaEnd(s, p + w)] != [] && ',' !in s[p + w..NonCommaEnd(s, p + w)]
    ensures s[p + 1] != ','
  {
    RunHasNoComma(s, p + w);
  }

  /** `\s+` gives back its last character, which `[^,]+` then takes alone. */
  lemma TryGroupGivesBack(s: string, p: nat, w: nat)
    requires p <= |s| && w == SpaceRun(s, p) && w >= 2 && (p + w == |s| || s[p + w] == ',')
    ensures TryGroup(s, p, w) == Some(s[p + w - 1..p + w])
    ensures s[p + w - 1..p + w] != [] && ',' !in s[p + w - 1..p + w]
    ensures s[p + 1] != ','
    ensures Trim(s[p + w - 1..p + w]) == Trim(s[p + 1..NonCommaEnd(s, p + 1)]) == []
  {
    assert s[p + w - 1] != ',';
    assert NonCommaEnd(s, p + w) == p + w;
    SameNonCommaEnd(s, p + w - 1, p + w);
    SameNonCommaEnd(s, p + 1, p + w);
    TrimOfSpaceIsEmpty(s[p + w - 1..p + w]);
    TrimOfSpaceIsEmpty(s[p + 1..p + w]);
  }

  /** The backtracking group succeeds exactly when one white-space character
      is followed by a non-comma, and its capture trims to the trimmed run
      after that first white-space character. */
  lemma TryGroupAgrees(s: string, p: nat)
    requires p <= |s|
    ensures var w := SpaceRun(s, p);
      TryGroup(s, p, w).Some? <==> (w >= 1 && p + 1 < |s| && s[p + 1] != ',')
    ensures var w := SpaceRun(s, p);
      TryGroup(s, p, w).Some? ==>
        var c := TryGroup(s, p, w).value;
        c != [] && ',' !in c && Trim(c) == Trim(s[p + 1..NonCommaEnd(s, p + 1)])
  {
    var w := SpaceRun(s, p);
    if w == 0 {
    } else if p + w < |s| && s[p + w] != ',' {
      TryGroupWholeRun(s, p, w);
      SpacesBeforeRun(s, p + 1, p + w);
    } else if w == 1 {
    } else {
      TryGroupGivesBack(s, p, w);
    }
  }

  /** One start position: the engine's attempt succeeds exactly where the
      reference says the pattern can start, with the same trimmed capture. */
  lemma MatchAtAgrees(s: string, marker: string, i: nat)
    ensures MatchAt(s, marker, i).Some? <==> MatchesAt(s, marker, i)
    ensures MatchAt(s, marker, i).Some? ==>
      var c := MatchAt(s, marker, i).value;
      c != [] && ',' !in c && Trim(c) == Trim(RunAfter(s, marker, i))
  {
    if MarkerAt(s, marker, i) {
      var p := i + |marker|;
      TryGroupAgrees(s, p);
      assert MatchAt(s, marker, i) == TryGroup(s, p, SpaceRun(s, p));
      assert p < |s| ==> (SpaceRun(s, p) >= 1 <==> IsJsSpace(s[p]));
    }
  }

  /** The engine's first match is the reference's leftmost match. */
  lemma {:induction false} MatchFromAgrees(s: string, marker: string, i: nat)
    ensures MatchFrom(s, marker, i).Some? <==> Leftmost(s, marker, i).Some?
    ensures MatchFrom(s, marker, i).Some? ==>
      var c := MatchFrom(s, marker, i).value;
      c != [] && ',' !in c && Trim(c) == Trim(RunAfter(s, marker, Leftmost(s, marker, i).value))
    decreases |s| - i
  {
    if |s| >= i + |marker| {
      MatchAtAgrees(s, marker, i);
      if !MatchesAt(s, marker, i) {
        MatchFromAgrees(s, marker, i + 1);
      }
    }
  }

  /** A stored field: trimmed and free of commas. */
  predicate IsField(f: string) {
    ',' !in f && Trim(f) == f
  }

  /** The three-field extraction of `handlePsychologistInfo`: each field
      is the trimmed capture of its marker's expression, and all three must
      match. */
  function ExtractProfile(text: string): Option<Profile> {
    match (Capture(text, SOY), Capture(text, ESPECIALIDAD), Capture(text, ORIENTACION))
    case (Some(n), Some(sp), Some(o)) => Some(Profile(Trim(n), Trim(sp), Trim(o)))
    case _ => None
  }

  /** A word equal to the marker without regard to case, followed by one
      white-space character and a non-comma, is a place where the pattern
      can start. */
  lemma MatchesAtFront(word: string, post: string, marker: string)
    requires |word| == |marker| && forall k :: 0 <= k < |word| ==> Lower(word[k]) == Lower(marker[k])
    requires 2 <= |post| && IsJsSpace(post[0]) && post[1] != ','
    ensures MatchesAt(word + post, marker, 0)
  {
    var s := word + post;
    forall k | 0 <= k < |marker| ensures s[k] == word[k] {
    }
    assert s[|marker|] == post[0];
    assert s[|marker| + 1] == post[1];
  }

  /** Text in front does not change where the pattern can start. */
  lemma MatchesAtShift(pre: string, t: string, marker: string, i: nat)
    requires MatchesAt(t, marker, i)
    ensures MatchesAt(pre + t, marker, |pre| + i)
  {
    var s := pre + t;
    forall k | |pre| + i <= k <= |pre| + i + |marker| + 1 ensures s[k] == t[k - |pre|] {
    }
  }

  /** Where each of the three patterns can start somewhere, a profile is
      extracted. */
  lemma ExtractsWhereAllMatch(text: string, i: nat, j: nat, k: nat)
    requires MatchesAt(text, SOY, i) && MatchesAt(text, ESPECIALIDAD, j) && MatchesAt(text, ORIENTACION, k)
    ensures ExtractProfile(text).Some?
  {
    ExtractProfileMatchesReference(text);
  }

  /** A marker in lower case found at `i` without regard to case occurs in
      the lower-cased text. */
  lemma MarkerAtContains(s: string, marker: string, i: nat)
    requires MarkerAt(s, marker, i)
    requires IsLowerCase(marker)
    ensures Contains(LowerStr(s), marker)
  {
    var lower := LowerStr(s);
    assert lower[i..i + |marker|] == marker by {
      forall k | 0 <= k < |marker| ensures lower[i..i + |marker|][k] == marker[k] {
        assert lower[i + k] == Lower(s[i + k]);
      }
    }
    ContainsAt(lower, marker, i);
  }

  /** A string that `toLowerCase` leaves as it is. */
  predicate IsLowerCase(m: string) {
    forall k :: 0 <= k < |m| ==> Lower(m[k]) == m[k]
  }

  /** The three markers are written in lower case. */
  lemma MarkersAreLowerCase()
    ensures IsLowerCase(SOY) && IsLowerCase(ESPECIALIDAD) && IsLowerCase(ORIENTACION)
  {
  }

  /** A marker in lower case that the expression matches occurs in the
      lower-cased text. */
  lemma CaptureFindsMarker(text: string, marker: string)
    requires IsLowerCase(marker) && Capture(text, marker).Some?
    ensures Contains(LowerStr(text), marker)
  {
    MatchFromAgrees(text, marker, 0);
    MarkerAtContains(text, marker, Leftmost(text, marker, 0).value);
  }

  /** Every text from which a profile is extracted passes the routers'
      onboarding test, so extraction never sees a text the test would send
      to the generator. */
  lemma ExtractedIsDetected(text: string)
    ensures ExtractProfile(text).Some? ==> IsOnboardingText(text)
  {
    if ExtractProfile(text).Some? {
      MarkersAreLowerCase();
      CaptureFindsMarker(text, SOY);
      CaptureFindsMarker(text, ESPECIALIDAD);
    }
  }

  /** The extraction succeeds exactly when each marker has a leftmost
      match, and each field is then the trimmed text after that marker's
      first white-space character up to the next comma; a stored field is
      trimmed and holds no comma. */
  lemma ExtractProfileMatchesReference(text: string)
    ensures ExtractProfile(text).Some? <==>
      Leftmost(text, SOY, 0).Some? && Leftmost(text, ESPECIALIDAD, 0).Some?
      && Leftmost(text, ORIENTACION, 0).Some?
    ensures ExtractProfile(text).Some? ==>
      var p := ExtractProfile(text).value;
      && p.name == Trim(RunAfter(text, SOY, Leftmost(text, SOY, 0).value))
      && p.specialty == Trim(RunAfter(text, ESPECIALIDAD, Leftmost(text, ESPECIALIDAD, 0).value))
      && p.orientation == Trim(RunAfter(text, ORIENTACION, Leftmost(text, ORIENTACION, 0).value))
      && IsField(p.name) && IsField(p.specialty) && IsField(p.orientation)
  {
    MatchFromAgrees(text, SOY, 0);
    MatchFromAgrees(text, ESPECIALIDAD, 0);
    MatchFromAgrees(text, ORIENTACION, 0);
    match (Capture(text, SOY), Capture(text, ESPECIALIDAD), Capture(text, ORIENTACION))
    case (Some(n), Some(sp), Some(o)) =>
      TrimKeepsCharacters(n, ','); TrimIdempotent(n);
      TrimKeepsCharacters(sp, ','); TrimIdempotent(sp);
      TrimKeepsCharacters(o, ','); TrimIdempotent(o);
    case _ =>
  }

  /** The reply of `handlePsychologistInfo`. */
  function OnboardingReply(text: string): string {
    if ExtractProfile(text).Some? then CONFIRMATION else FORMAT_INSTRUCTION
  }

  /** The profile store after `handlePsychologistInfo(from, text)`: the
      extracted profile under the sender, or the store unchanged. */
  function StoreProfile(info: map<string, Profile>, from: string, text: string): map<string, Profile> {
    match ExtractProfile(text)
    case Some(p) => info[from := p]
    case None => info
  }
}
