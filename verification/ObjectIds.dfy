/** Vector-store object ids: printing, parsing, and the hit filters of the searcher. */
module ObjectIds {
  import opened Options
  import opened Decimals
  import opened Orders

  const I32_MAX: int := 0x7fff_ffff
  const I32_MIN: int := -0x8000_0000

  predicate IsI32(n: int) {
    I32_MIN <= n <= I32_MAX
  }

  /** `data_object_id`. */
  function ObjectId(userId: int, captureId: int): string {
    "u" + IntToString(userId) + "-c" + IntToString(captureId)
  }

  // ---- Splitting and parsing ------------------------------------------------------------------

  predicate NoDash(s: string) {
    forall i | 0 <= i < |s| :: s[i] != '-'
  }

  /** `str::split('-')`: the segments between dashes, at least one. */
  function SplitDashes(s: string): (parts: seq<string>)
    ensures |parts| >= 1
  {
    if s == "" then [""]
    else
      var rest := SplitDashes(s[1..]);
      if s[0] == '-' then [""] + rest else [[s[0]] + rest[0]] + rest[1..]
  }

  /** `str::parse::<i32>`: an optional sign, at least one digit, in range. */
  function ParseI32(s: string): (r: Option<int>)
    ensures r.Some? ==> IsI32(r.value)
  {
    var negative := s != "" && s[0] == '-';
    var digits := if s != "" && (s[0] == '-' || s[0] == '+') then s[1..] else s;
    if digits == "" || !AllDigits(digits) then None
    else
      var value: int := if negative then -(DigitsValue(digits) as int) else DigitsValue(digits);
      if IsI32(value) then Some(value) else None
  }

  function StripPrefix(s: string, c: char): Option<string> {
    if s != "" && s[0] == c then Some(s[1..]) else None
  }

  function ParsePart(s: string, prefix: char): Option<int> {
    match StripPrefix(s, prefix)
    case None => None
    case Some(digits) => ParseI32(digits)
  }

  /** `parse_fields`: exactly two segments, `u<user>` and `c<capture>`. */
  function ParseFields(s: string): Option<(int, int)> {
    var parts := SplitDashes(s);
    if |parts| != 2 then None
    else
      match (ParsePart(parts[0], 'u'), ParsePart(parts[1], 'c'))
      case (Some(user), Some(capture)) => Some((user, capture))
      case _ => None
  }

  lemma {:induction false} SplitPlain(s: string)
    requires NoDash(s)
    ensures SplitDashes(s) == [s]
  {
    if s != "" {
      SplitPlain(s[1..]);
      assert s == [s[0]] + s[1..];
    }
  }

  lemma {:induction false} SplitAtDash(s: string, rest: string)
    requires NoDash(s)
    ensures SplitDashes(s + "-" + rest) == [s] + SplitDashes(rest)
  {
    var whole := s + "-" + rest;
    if s == "" {
      assert whole[1..] == rest;
    } else {
      SplitAtDash(s[1..], rest);
      assert whole[1..] == s[1..] + "-" + rest;
      assert s == [s[0]] + s[1..];
    }
  }

  lemma DigitsHaveNoDash(prefix: char, n: nat)
    requires prefix != '-'
    ensures NoDash([prefix] + NatToString(n)) && NoDash(NatToString(n))
  {
  }

  lemma {:induction false} PartRoundTrip(prefix: char, n: nat)
    requires n <= I32_MAX
    ensures ParsePart([prefix] + NatToString(n), prefix) == Some(n)
  {
    var digits := NatToString(n);
    assert ([prefix] + digits)[1..] == digits;
    assert IsDigit(digits[0]);
    PrintThenRead(n);
  }

  /** The parts a printed id splits into after its first dash, by the sign of the capture id. */
  lemma {:induction false} CapturePart(captureId: int)
    ensures captureId >= 0 ==> SplitDashes("c" + IntToString(captureId)) == ["c" + IntToString(captureId)]
    ensures captureId < 0 ==> |SplitDashes("c" + IntToString(captureId))| >= 2
  {
    if captureId >= 0 {
      DigitsHaveNoDash('c', captureId);
      SplitPlain("c" + NatToString(captureId));
    } else {
      assert "c" + IntToString(captureId) == "c" + "-" + NatToString(-captureId);
      SplitAtDash("c", NatToString(-captureId));
    }
  }

  lemma {:induction false} WholeId(userId: int, captureId: int)
    ensures userId >= 0 ==>
      SplitDashes(ObjectId(userId, captureId))
      == ["u" + IntToString(userId)] + SplitDashes("c" + IntToString(captureId))
    ensures userId < 0 ==> |SplitDashes(ObjectId(userId, captureId))| >= 3
  {
    var tail := "c" + IntToString(captureId);
    if userId >= 0 {
      DigitsHaveNoDash('u', userId);
      assert ObjectId(userId, captureId) == ("u" + NatToString(userId)) + "-" + tail;
      SplitAtDash("u" + NatToString(userId), tail);
    } else {
      var digits := NatToString(-userId);
      DigitsHaveNoDash('u', -userId);
      assert ObjectId(userId, captureId) == "u" + "-" + (digits + "-" + tail);
      SplitAtDash("u", digits + "-" + tail);
      SplitAtDash(digits, tail);
    }
  }

  /** Parsing a printed id gives the same pair when both ids are non-negative and an error otherwise, never
      another pair. */
  lemma PrintParse(userId: int, captureId: int)
    requires IsI32(userId) && IsI32(captureId)
    ensures ParseFields(ObjectId(userId, captureId))
      == if userId >= 0 && captureId >= 0 then Some((userId, captureId)) else None
  {
    WholeId(userId, captureId);
    CapturePart(captureId);
    if userId >= 0 && captureId >= 0 {
      PartRoundTrip('u', userId);
      PartRoundTrip('c', captureId);
    }
  }

  /** The form of an id: `u`, the user, `-c`, the capture. */
  lemma PrintedForm()
    ensures ObjectId(12, 345) == "u12-c345"
  {
    assert NatToString(1) == "1" && NatToString(3) == "3";
    assert NatToString(12) == NatToString(1) + "2";
    assert NatToString(345) == NatToString(34) + "5" && NatToString(34) == NatToString(3) + "4";
  }

  // ---- Every id that parses -------------------------------------------------------------------

  /** Digits, after a plus sign or not, with this value. */
  predicate Reads(s: string, n: int) {
    var digits := if s != "" && s[0] == '+' then s[1..] else s;
    digits != "" && AllDigits(digits) && DigitsValue(digits) == n <= I32_MAX
  }

  lemma ParseWithoutDash(s: string, n: int)
    requires NoDash(s)
    ensures ParseI32(s) == Some(n) <==> Reads(s, n)
  {
  }

  lemma ReadsHasNoDash(s: string, n: int)
    requires Reads(s, n)
    ensures NoDash(s)
  {
    var digits := if s[0] == '+' then s[1..] else s;
    forall i | 0 <= i < |s| ensures s[i] != '-' {
      if s[0] == '+' && i > 0 {
        assert s[i] == digits[i - 1];
      }
    }
  }

  lemma {:induction false} PartsHaveNoDash(s: string)
    ensures forall i | 0 <= i < |SplitDashes(s)| :: NoDash(SplitDashes(s)[i])
    ensures |SplitDashes(s)| == 2 ==> s == SplitDashes(s)[0] + "-" + SplitDashes(s)[1]
    ensures |SplitDashes(s)| == 1 ==> s == SplitDashes(s)[0]
  {
    if s != "" {
      PartsHaveNoDash(s[1..]);
      assert s == [s[0]] + s[1..];
    }
  }

  /** This text is `u`, a user number, `-c` and a capture number. */
  predicate IsIdOf(s: string, a: string, b: string, userId: int, captureId: int) {
    s == "u" + a + "-c" + b && Reads(a, userId) && Reads(b, captureId)
  }

  /** An id parses to a pair exactly if it is written that way; nothing else parses, so no signs but a plus, no
      further dash, and never a negative number. */
  lemma ParsesIff(s: string, userId: int, captureId: int)
    ensures ParseFields(s) == Some((userId, captureId)) <==> exists a, b :: IsIdOf(s, a, b, userId, captureId)
  {
    if ParseFields(s) == Some((userId, captureId)) {
      var a, b := ParsedIsWritten(s, userId, captureId);
    }
    forall a, b | IsIdOf(s, a, b, userId, captureId) ensures ParseFields(s) == Some((userId, captureId)) {
      WrittenParses(a, b, userId, captureId);
    }
  }

  lemma ParsedIsWritten(s: string, userId: int, captureId: int) returns (a: string, b: string)
    requires ParseFields(s) == Some((userId, captureId))
    ensures IsIdOf(s, a, b, userId, captureId)
  {
    var parts := SplitDashes(s);
    PartsHaveNoDash(s);
    a := ParsedPart(parts[0], 'u', userId);
    b := ParsedPart(parts[1], 'c', captureId);
    Written(a, b);
  }

  lemma ParsedPart(s: string, prefix: char, n: int) returns (digits: string)
    requires NoDash(s) && ParsePart(s, prefix) == Some(n)
    ensures s == [prefix] + digits && Reads(digits, n)
  {
    digits := s[1..];
    forall i | 0 <= i < |digits| ensures digits[i] != '-' {
      assert digits[i] == s[i + 1];
    }
    ParseWithoutDash(digits, n);
  }

  lemma Written(a: string, b: string)
    ensures ("u" + a) + "-" + ("c" + b) == "u" + a + "-c" + b
  {
    assert "-" + ("c" + b) == "-c" + b;
    assert ("u" + a) + "-" + ("c" + b) == ("u" + a) + ("-" + ("c" + b));
  }

  lemma WrittenParses(a: string, b: string, userId: int, captureId: int)
    requires Reads(a, userId) && Reads(b, captureId)
    ensures ParseFields("u" + a + "-c" + b) == Some((userId, captureId))
  {
    ReadsHasNoDash(a, userId);
    ReadsHasNoDash(b, captureId);
    ParseWithoutDash(a, userId);
    ParseWithoutDash(b, captureId);
    SplitAtDash("u" + a, "c" + b);
    SplitPlain("c" + b);
    Written(a, b);
    assert ("u" + a)[1..] == a && ("c" + b)[1..] == b;
  }

  // ---- Search hits ----------------------------------------------------------------------------

  /** The capture a hit stands for, if it is well-formed, the caller's own and not the query capture. */
  function OwnCapture(hit: string, user: int, exclude: Option<int>): Option<int> {
    match ParseFields(hit)
    case Some((u, c)) => if u == user && exclude != Some(c) then Some(c) else None
    case None => None
  }

  function Verdicts(hits: seq<string>, user: int, exclude: Option<int>): (v: seq<Option<int>>)
    ensures |v| == |hits| && forall i | 0 <= i < |v| :: v[i] == OwnCapture(hits[i], user, exclude)
  {
    seq(|hits|, i requires 0 <= i < |hits| => OwnCapture(hits[i], user, exclude))
  }

  /** The values among the first `n` options, in order, repeats included. */
  function Present(options: seq<Option<int>>, n: nat): seq<int>
    requires n <= |options|
  {
    if n == 0 then []
    else Present(options, n - 1) + match options[n - 1] case Some(c) => [c] case None => []
  }

  /** The caller's captures among the hits, in order, repeats included. */
  function OwnCaptures(hits: seq<string>, user: int, exclude: Option<int>): seq<int> {
    Present(Verdicts(hits, user, exclude), |hits|)
  }

  lemma KeptStep(options: seq<Option<int>>, i: nat)
    requires i < |options|
    ensures var kept, next := FirstOccurrences(Present(options, i)), FirstOccurrences(Present(options, i + 1));
      match options[i]
      case Some(c) => next == if c in kept then kept else kept + [c]
      case None => next == kept
  {
    if options[i].Some? {
      FirstOccurrencesSnoc(Present(options, i), options[i].value);
    } else {
      assert Present(options, i + 1) == Present(options, i);
    }
  }

  /** Decide one hit as the loops do: drop the malformed, the foreign, and the query capture itself. */
  method AcceptHit(hit: string, user: int, exclude: Option<int>) returns (r: Option<int>)
    ensures r == OwnCapture(hit, user, exclude)
  {
    var parsed := ParseFields(hit);
    if parsed.None? {
      return None;
    }
    if parsed.value.0 != user {
      return None;
    }
    if exclude == Some(parsed.value.1) {
      return None;
    }
    return Some(parsed.value.1);
  }

  /** The hit loop of `search` and `search_similar` (which also excludes the query capture). */
  method FilterHits(hits: seq<string>, user: int, exclude: Option<int>) returns (captures: seq<int>)
    ensures captures == FirstOccurrences(OwnCaptures(hits, user, exclude))
  {
    var seen: set<int> := {};
    captures := [];
    NothingKept(hits, user, exclude);
    for i := 0 to |hits|
      invariant Kept(hits, user, exclude, i, seen, captures)
    {
      var accepted := AcceptHit(hits[i], user, exclude);
      seen, captures := Keep(hits, user, exclude, i, accepted, seen, captures);
    }
    AllKept(hits, user, exclude, seen, captures);
  }

  /** What the loop has after `i` hits: the first occurrences, and the same values as a set. */
  ghost predicate Kept(hits: seq<string>, user: int, exclude: Option<int>, i: nat, seen: set<int>, captures: seq<int>)
    requires i <= |hits|
  {
    && captures == FirstOccurrences(Present(Verdicts(hits, user, exclude), i))
    && forall c :: c in seen <==> c in captures
  }

  lemma NothingKept(hits: seq<string>, user: int, exclude: Option<int>)
    ensures Kept(hits, user, exclude, 0, {}, [])
  {
  }

  lemma AllKept(hits: seq<string>, user: int, exclude: Option<int>, seen: set<int>, captures: seq<int>)
    requires Kept(hits, user, exclude, |hits|, seen, captures)
    ensures captures == FirstOccurrences(OwnCaptures(hits, user, exclude))
  {
  }

  /** One turn of the loop: an accepted capture is pushed when it is new to the set. */
  method Keep(ghost hits: seq<string>, ghost user: int, ghost exclude: Option<int>, ghost i: nat,
              accepted: Option<int>, seen: set<int>, captures: seq<int>)
    returns (seen': set<int>, captures': seq<int>)
    requires i < |hits| && accepted == OwnCapture(hits[i], user, exclude)
    requires Kept(hits, user, exclude, i, seen, captures)
    ensures Kept(hits, user, exclude, i + 1, seen', captures')
  {
    KeptStep(Verdicts(hits, user, exclude), i);
    seen', captures' := seen, captures;
    if accepted.Some? && accepted.value !in seen {
      seen' := seen + {accepted.value};
      captures' := captures + [accepted.value];
    }
  }

  /** A printed id is accepted exactly for its own user. */
  lemma PrintedHit(userId: int, captureId: int, user: int, exclude: Option<int>)
    requires 0 <= userId <= I32_MAX && 0 <= captureId <= I32_MAX
    ensures OwnCapture(ObjectId(userId, captureId), user, exclude)
      == if userId == user && exclude != Some(captureId) then Some(captureId) else None
  {
    PrintParse(userId, captureId);
  }

  predicate PrintedAt(users: seq<int>, captures: seq<int>, hits: seq<string>, i: nat)
    requires |users| == |captures| == |hits| && i < |hits|
  {
    0 <= users[i] <= I32_MAX && 0 <= captures[i] <= I32_MAX && hits[i] == ObjectId(users[i], captures[i])
  }

  predicate OwnAt(users: seq<int>, captures: seq<int>, i: nat, user: int, k: int)
    requires |users| == |captures| && i < |users|
  {
    users[i] == user && captures[i] == k
  }

  lemma {:induction false} PresentHas(options: seq<Option<int>>, n: nat, k: int)
    requires n <= |options|
    ensures k in Present(options, n) <==> exists i | 0 <= i < n :: options[i] == Some(k)
  {
    if n > 0 {
      PresentHas(options, n - 1, k);
    }
  }

  /** On a page of printed ids the filter keeps exactly the caller's own captures but the query capture. */
  lemma PrintedHits(users: seq<int>, captures: seq<int>, hits: seq<string>, user: int, exclude: Option<int>, k: int)
    requires |users| == |captures| == |hits|
    requires forall i | 0 <= i < |hits| :: PrintedAt(users, captures, hits, i)
    ensures k in FirstOccurrences(OwnCaptures(hits, user, exclude))
      <==> exclude != Some(k) && exists i | 0 <= i < |hits| :: OwnAt(users, captures, i, user, k)
  {
    var verdicts := Verdicts(hits, user, exclude);
    forall i | 0 <= i < |hits|
      ensures verdicts[i] == Some(k) <==> OwnAt(users, captures, i, user, k) && exclude != Some(k)
    {
      assert PrintedAt(users, captures, hits, i);
      PrintedHit(users[i], captures[i], user, exclude);
    }
    PresentHas(verdicts, |hits|, k);
    FirstOccurrencesMeaning(OwnCaptures(hits, user, exclude));
  }
}
