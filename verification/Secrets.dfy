/** Secret redaction by repeated text replacement (governai/runtime/secrets.py). The theory is about
    any non-empty marker m; the registry uses the source's. */
module Secrets {

  const MARKER := "[REDACTED]"

  ghost predicate OccursAt(s: string, text: string, i: nat) {
    i + |s| <= |text| && text[i..i + |s|] == s
  }

  ghost predicate Occurs(s: string, text: string) {
    exists i: nat :: OccursAt(s, text, i)
  }

  /** Laid over the marker at offset d, the secret agrees with it wherever the two overlap. */
  ghost predicate AgreesAt(s: string, m: string, d: int) {
    forall k | 0 <= k < |s| && 0 <= d + k < |m| :: s[k] == m[d + k]
  }

  /** Some overlap of at least one character agrees: the secret contains the marker, lies inside it,
      or shares a border with it. */
  ghost predicate Touches(s: string, m: string) {
    exists d: int :: -|s| < d < |m| && AgreesAt(s, m, d)
  }

  /** str.replace: leftmost, non-overlapping replacement of every occurrence of s by m. */
  function ReplaceAll(text: string, s: string, m: string): string
    requires s != ""
    decreases |text|
  {
    if |text| < |s| then text
    else if text[..|s|] == s then m + ReplaceAll(text[|s|..], s, m)
    else [text[0]] + ReplaceAll(text[1..], s, m)
  }

  /** Replacement of each secret in turn. */
  function RedactInOrder(text: string, order: seq<string>, m: string): string
    requires "" !in order
    decreases |order|
  {
    if order == [] then text
    else RedactInOrder(ReplaceAll(text, order[0], m), order[1..], m)
  }

  // ---- occurrences ----

  lemma ShiftAt(s: string, text: string, n: nat, i: nat)
    requires n <= |text|
    ensures OccursAt(s, text[n..], i) <==> OccursAt(s, text, n + i)
  {
    if n + i + |s| <= |text| {
      assert text[n + i..n + i + |s|] == text[n..][i..i + |s|];
    }
  }

  lemma ShiftPast(s: string, m: string, rest: string, i: nat)
    requires |m| <= i
    ensures OccursAt(s, m + rest, i) <==> OccursAt(s, rest, i - |m|)
  {
    assert (m + rest)[|m|..] == rest;
    ShiftAt(s, m + rest, |m|, i - |m|);
  }

  lemma Charwise(s: string, text: string, i: nat)
    requires i + |s| <= |text|
    ensures OccursAt(s, text, i) <==> forall k | 0 <= k < |s| :: text[i + k] == s[k]
  {
    if forall k | 0 <= k < |s| :: text[i + k] == s[k] {
      assert text[i..i + |s|] == s;
    } else {
      var k :| 0 <= k < |s| && text[i + k] != s[k];
      assert text[i..i + |s|][k] == text[i + k];
    }
  }

  /** An occurrence that starts inside a marker at the head agrees with it. */
  lemma OverlapsHead(s: string, m: string, rest: string, i: nat)
    requires i < |m| && OccursAt(s, m + rest, i)
    ensures AgreesAt(s, m, i)
  {
    Charwise(s, m + rest, i);
  }

  /** A tail of s that starts a text whose head is a marker agrees with the marker from before it. */
  lemma TailOverlaps(s: string, j: nat, m: string, rest: string)
    requires j <= |s| && s[j..] <= m + rest
    ensures AgreesAt(s, m, 0 - j)
  {
    var tail := s[j..];
    assert forall k | 0 <= k < |tail| :: tail[k] == (m + rest)[k] && s[j + k] == tail[k];
    assert forall k | j <= k < |s| :: s[k] == (m + rest)[k - j];
  }

  // ---- one replacement ----

  /** A tail of s that opens the replaced text already opened the original text: it cannot begin
      inside a marker. */
  lemma {:induction false} TailKept(s: string, j: nat, text: string, r: string, m: string)
    requires r != "" && m != "" && !Touches(s, m) && j <= |s|
    requires s[j..] <= ReplaceAll(text, r, m)
    ensures s[j..] <= text
    decreases |text|
  {
    if j < |s| && |text| >= |r| {
      if text[..|r|] == r {
        TailOverlaps(s, j, m, ReplaceAll(text[|r|..], r, m));
      } else {
        assert s[j + 1..] == s[j..][1..] <= ReplaceAll(text[1..], r, m);
        TailKept(s, j + 1, text[1..], r, m);
        assert s[j..] == [s[j]] + s[j + 1..] && text == [text[0]] + text[1..];
      }
    }
  }

  /** Replacing any r brings no occurrence of a secret that does not touch the marker, and removes
      the secret when it is r itself. */
  lemma {:induction false} NoNewOccurrence(s: string, text: string, r: string, m: string, i: nat)
    requires r != "" && s != "" && m != "" && !Touches(s, m)
    requires OccursAt(s, ReplaceAll(text, r, m), i)
    ensures Occurs(s, text) && s != r
    decreases |text|
  {
    if |text| < |r| {
      assert OccursAt(s, text, i);
    } else if text[..|r|] == r {
      var rest := ReplaceAll(text[|r|..], r, m);
      if i < |m| {
        OverlapsHead(s, m, rest, i);
      } else {
        ShiftPast(s, m, rest, i);
        NoNewOccurrence(s, text[|r|..], r, m, i - |m|);
        var at: nat :| OccursAt(s, text[|r|..], at);
        ShiftAt(s, text, |r|, at);
      }
    } else if i == 0 {
      assert s == s[0..] <= ReplaceAll(text, r, m);
      TailKept(s, 0, text, r, m);
      assert OccursAt(s, text, 0);
    } else {
      ShiftPast(s, [text[0]], ReplaceAll(text[1..], r, m), i);
      NoNewOccurrence(s, text[1..], r, m, i - 1);
      var at: nat :| OccursAt(s, text[1..], at);
      ShiftAt(s, text, 1, at);
    }
  }

  lemma StaysOut(s: string, text: string, r: string, m: string)
    requires r != "" && s != "" && m != "" && !Touches(s, m)
    requires s == r || !Occurs(s, text)
    ensures !Occurs(s, ReplaceAll(text, r, m))
  {
    if i: nat :| OccursAt(s, ReplaceAll(text, r, m), i) {
      NoNewOccurrence(s, text, r, m, i);
    }
  }

  /** Replacing a text that does not occur changes nothing. */
  lemma {:induction false} AbsentUntouched(text: string, s: string, m: string)
    requires s != "" && !Occurs(s, text)
    ensures ReplaceAll(text, s, m) == text
    decreases |text|
  {
    if |text| >= |s| {
      assert !OccursAt(s, text, 0);
      forall i: nat ensures !OccursAt(s, text[1..], i) {
        ShiftAt(s, text, 1, i);
      }
      AbsentUntouched(text[1..], s, m);
    }
  }

  // ---- a whole pass ----

  lemma {:induction false} StaysAbsent(text: string, order: seq<string>, m: string, s: string)
    requires "" !in order && s != "" && m != "" && !Touches(s, m) && !Occurs(s, text)
    ensures !Occurs(s, RedactInOrder(text, order, m))
    decreases |order|
  {
    if order != [] {
      StaysOut(s, text, order[0], m);
      StaysAbsent(ReplaceAll(text, order[0], m), order[1..], m, s);
    }
  }

  /** Main result: when no secret touches the marker, every text is free of every secret after the
      pass, whatever the order. */
  lemma {:induction false} RedactionComplete(text: string, order: seq<string>, m: string)
    requires "" !in order && m != ""
    requires forall s | s in order :: !Touches(s, m)
    ensures forall s | s in order :: !Occurs(s, RedactInOrder(text, order, m))
    decreases |order|
  {
    if order != [] {
      StaysOut(order[0], text, order[0], m);
      var next := ReplaceAll(text, order[0], m);
      StaysAbsent(next, order[1..], m, order[0]);
      RedactionComplete(next, order[1..], m);
    }
  }

  /** A text that holds no secret is not changed. */
  lemma {:induction false} CleanTextUnchanged(text: string, order: seq<string>, m: string)
    requires "" !in order
    requires forall s | s in order :: !Occurs(s, text)
    ensures RedactInOrder(text, order, m) == text
    decreases |order|
  {
    if order != [] {
      AbsentUntouched(text, order[0], m);
      CleanTextUnchanged(text, order[1..], m);
    }
  }

  lemma {:induction false} RedactSnoc(text: string, order: seq<string>, m: string, s: string)
    requires "" !in order && s != ""
    ensures RedactInOrder(text, order + [s], m) == ReplaceAll(RedactInOrder(text, order, m), s, m)
    decreases |order|
  {
    if order == [] {
      assert order + [s] == [s];
    } else {
      assert (order + [s])[1..] == order[1..] + [s];
      RedactSnoc(ReplaceAll(text, order[0], m), order[1..], m, s);
    }
  }

  // ---- one secret: the exact condition ----

  ghost predicate NoMatchBefore(s: string, text: string, j: nat) {
    forall i: nat | i < j :: !OccursAt(s, text, i)
  }

  /** s is found in s[..j] + s before position j. */
  ghost predicate MatchesEarlier(s: string, j: nat)
    requires j <= |s|
  {
    !NoMatchBefore(s, s[..j] + s, j)
  }

  /** The overlap at d lets a secret survive its own replacement. One that starts inside the marker
      always does; one that starts before it does unless the leftmost match comes earlier. */
  ghost predicate LeaksAt(s: string, m: string, d: int) {
    -|s| < d < |m| && AgreesAt(s, m, d) && (d < 0 ==> !MatchesEarlier(s, -d))
  }

  lemma TooShort(text: string, s: string, m: string)
    requires s != "" && |text| < |s|
    ensures ReplaceAll(text, s, m) == text
  {
  }

  lemma MatchedHead(text: string, s: string, m: string)
    requires s != "" && |text| >= |s| && text[..|s|] == s
    ensures ReplaceAll(text, s, m) == m + ReplaceAll(text[|s|..], s, m)
  {
  }

  /** A character that begins no match is copied. */
  lemma UnmatchedHead(text: string, s: string, m: string)
    requires s != "" && |text| >= |s| && text[..|s|] != s
    ensures ReplaceAll(text, s, m) == [text[0]] + ReplaceAll(text[1..], s, m)
  {
  }

  lemma UnmatchedTail(s: string, text: string, j: nat)
    requires 0 < j <= |text| && |s| <= |text| && NoMatchBefore(s, text, j)
    ensures text[..|s|] != s && NoMatchBefore(s, text[1..], j - 1)
  {
    assert !OccursAt(s, text, 0);
    forall i: nat | i < j - 1 ensures !OccursAt(s, text[1..], i) {
      ShiftAt(s, text, 1, i);
    }
  }

  lemma {:induction false} UnmatchedPrefix(text: string, s: string, m: string, j: nat)
    requires s != "" && j <= |text| && NoMatchBefore(s, text, j)
    ensures ReplaceAll(text, s, m) == text[..j] + ReplaceAll(text[j..], s, m)
    decreases |text|
  {
    hide OccursAt, ReplaceAll, NoMatchBefore;
    if |text| < |s| {
      TooShort(text, s, m);
      TooShort(text[j..], s, m);
      assert text == text[..j] + text[j..];
    } else if j > 0 {
      UnmatchedTail(s, text, j);
      UnmatchedHead(text, s, m);
      UnmatchedPrefix(text[1..], s, m, j - 1);
      OneFurther(text, j);
      Associates([text[0]], text[1..][..j - 1], ReplaceAll(text[j..], s, m));
    } else {
      assert text[0..] == text && text[..0] == [];
    }
  }

  lemma OneFurther(text: string, j: nat)
    requires 0 < j <= |text|
    ensures text[1..][j - 1..] == text[j..] && text[..j] == [text[0]] + text[1..][..j - 1]
  {
  }

  /** str.replace in full: up to the first occurrence the text is kept, the occurrence becomes the marker, and
      so on with what comes after it; a text without occurrences is kept (AbsentUntouched). */
  lemma FirstReplaced(text: string, s: string, m: string, i: nat)
    requires s != "" && OccursAt(s, text, i) && forall j: nat | j < i :: !OccursAt(s, text, j)
    ensures ReplaceAll(text, s, m) == text[..i] + m + ReplaceAll(text[i + |s|..], s, m)
  {
    hide ReplaceAll, OccursAt;
    OccurrenceSplits(s, text, i);
    UnmatchedPrefix(text, s, m, i);
    MatchedHead(text[i..], s, m);
    Associates(text[..i], m, ReplaceAll(text[i + |s|..], s, m));
  }

  lemma OccurrenceSplits(s: string, text: string, i: nat)
    requires OccursAt(s, text, i)
    ensures i + |s| <= |text| && text[i..][..|s|] == s && text[i..][|s|..] == text[i + |s|..]
  {
    assert text[i..][..|s|] == text[i..i + |s|];
  }

  lemma Associates(a: string, b: string, c: string)
    ensures a + (b + c) == a + b + c
  {
  }

  lemma ReplaceHead(s: string, b: string, m: string)
    requires |b| < |s|
    ensures ReplaceAll(s + b, s, m) == m + b
  {
    assert (s + b)[..|s|] == s && (s + b)[|s|..] == b;
  }

  lemma LeakInside(s: string, m: string, d: nat) returns (text: string)
    requires s != "" && d < |m| && AgreesAt(s, m, d)
    ensures Occurs(s, ReplaceAll(text, s, m))
  {
    var n := if |s| <= |m| - d then |s| else |m| - d;
    text := s + s[n..];
    ReplaceHead(s, s[n..], m);
    Charwise(s, m + s[n..], d);
  }

  lemma LeakBefore(s: string, m: string, j: nat) returns (text: string)
    requires m != "" && 0 < j < |s| && AgreesAt(s, m, 0 - j) && !MatchesEarlier(s, j)
    ensures Occurs(s, ReplaceAll(text, s, m))
  {
    var n := if |s| - j <= |m| then |s| - j else |m|;
    var b := s[j + n..];
    text := s[..j] + (s + b);
    forall i: nat | i < j ensures !OccursAt(s, text, i) {
      assert !OccursAt(s, s[..j] + s, i);
      assert text[i..i + |s|] == (s[..j] + s)[i..i + |s|];
    }
    UnmatchedPrefix(text, s, m, j);
    assert text[..j] == s[..j] && text[j..] == s + b;
    ReplaceHead(s, b, m);
    BridgesMarker(s, m, j, n);
  }

  lemma BridgesMarker(s: string, m: string, j: nat, n: nat)
    requires 0 < j && n <= |m| && j + n <= |s| && (n < |m| ==> j + n == |s|) && AgreesAt(s, m, 0 - j)
    ensures OccursAt(s, s[..j] + (m + s[j + n..]), 0)
  {
    var out := s[..j] + (m + s[j + n..]);
    forall k | 0 <= k < |s| ensures out[0 + k] == s[k] {
      if j <= k < j + n {
        assert s[k] == m[0 - j + k];
      }
    }
    Charwise(s, out, 0);
  }

  /** The match found in the text would be found earlier in s[..j] + s. */
  lemma EarlierMatch(s: string, j: nat, text: string)
    requires j <= |s| <= |text| && text[..|s|] == s && MatchesEarlier(s, j)
    ensures !NoMatchBefore(s, s[..j] + text, j)
  {
    var i: nat :| i < j && OccursAt(s, s[..j] + s, i);
    assert s[..j] + text == (s[..j] + s) + text[|s|..];
    assert (s[..j] + text)[i..i + |s|] == (s[..j] + s)[i..i + |s|];
    assert OccursAt(s, s[..j] + text, i);
  }

  /** The scan passes one more position without a match. */
  lemma ScanOne(s: string, j: nat, text: string)
    requires j < |s| && text != "" && s[j] == text[0] && !OccursAt(s, text, 0)
    requires NoMatchBefore(s, s[..j] + text, j)
    ensures NoMatchBefore(s, s[..j + 1] + text[1..], j + 1)
  {
    var whole := s[..j] + text;
    assert s[..j + 1] + text[1..] == whole && whole[j..] == text;
    ShiftAt(s, whole, j, 0);
  }

  /** As TailKept, for the secret's own replacement, where the part already scanned holds no match. */
  lemma {:induction false} OwnTailKept(s: string, j: nat, text: string, m: string)
    requires s != "" && m != "" && j <= |s| && (forall d :: !LeaksAt(s, m, d))
    requires NoMatchBefore(s, s[..j] + text, j)
    requires s[j..] <= ReplaceAll(text, s, m)
    ensures s[j..] <= text
    decreases |text|
  {
    if j < |s| && |text| >= |s| {
      if text[..|s|] == s {
        TailOverlaps(s, j, m, ReplaceAll(text[|s|..], s, m));
        assert !LeaksAt(s, m, 0 - j);
        EarlierMatch(s, j, text);
      } else {
        ScanOne(s, j, text);
        assert s[j + 1..] == s[j..][1..] <= ReplaceAll(text[1..], s, m);
        OwnTailKept(s, j + 1, text[1..], m);
        assert s[j..] == [s[j]] + s[j + 1..] && text == [text[0]] + text[1..];
      }
    }
  }

  /** No occurrence starts inside a marker at the head. */
  lemma NotInMarker(s: string, m: string, rest: string, i: nat)
    requires i < |m| && s != "" && forall d :: !LeaksAt(s, m, d)
    ensures !OccursAt(s, m + rest, i)
  {
    assert !LeaksAt(s, m, i);
    if OccursAt(s, m + rest, i) {
      OverlapsHead(s, m, rest, i);
    }
  }

  /** Nor at a character that begins no match. */
  lemma NotAtCopied(s: string, text: string, m: string)
    requires s != "" && m != "" && |text| >= |s| && text[..|s|] != s && forall d :: !LeaksAt(s, m, d)
    ensures !OccursAt(s, ReplaceAll(text, s, m), 0)
  {
    hide ReplaceAll, LeaksAt;
    if OccursAt(s, ReplaceAll(text, s, m), 0) {
      assert s == s[0..] <= ReplaceAll(text, s, m);
      OwnTailKept(s, 0, text, m);
    }
  }

  lemma {:induction false} OwnReplacementComplete(s: string, text: string, m: string, i: nat)
    requires s != "" && m != "" && forall d :: !LeaksAt(s, m, d)
    ensures !OccursAt(s, ReplaceAll(text, s, m), i)
    decreases |text|
  {
    hide OccursAt, ReplaceAll, LeaksAt;
    if |text| < |s| {
      TooShort(text, s, m);
      TooShortForIt(s, text, i);
    } else if text[..|s|] == s {
      MatchedHead(text, s, m);
      var rest := ReplaceAll(text[|s|..], s, m);
      if i >= |m| {
        ShiftPast(s, m, rest, i);
        OwnReplacementComplete(s, text[|s|..], m, i - |m|);
      } else {
        NotInMarker(s, m, rest, i);
      }
    } else if i > 0 {
      UnmatchedHead(text, s, m);
      ShiftPast(s, [text[0]], ReplaceAll(text[1..], s, m), i);
      OwnReplacementComplete(s, text[1..], m, i - 1);
    } else {
      NotAtCopied(s, text, m);
    }
  }

  lemma TooShortForIt(s: string, text: string, i: nat)
    requires |text| < |s|
    ensures !OccursAt(s, text, i)
  {
  }

  ghost predicate Removed(s: string, text: string, m: string)
    requires s != ""
  {
    !Occurs(s, ReplaceAll(text, s, m))
  }

  /** Main result for a single secret, both directions: its replacement removes it from every text
      exactly when no overlap with the marker leaks. */
  lemma SingleSecretExact(s: string, m: string)
    requires s != "" && m != ""
    ensures (forall text :: Removed(s, text, m)) <==> (forall d :: !LeaksAt(s, m, d))
  {
    if d :| LeaksAt(s, m, d) {
      if d >= 0 {
        var text := LeakInside(s, m, d);
        assert !Removed(s, text, m);
      } else {
        var text := LeakBefore(s, m, 0 - d);
        assert !Removed(s, text, m);
      }
    } else {
      forall text ensures Removed(s, text, m) {
        forall i: nat ensures !OccursAt(s, ReplaceAll(text, s, m), i) {
          OwnReplacementComplete(s, text, m, i);
        }
      }
    }
  }

  // ---- the registry ----

  class SecretRegistry {
    var values: set<string>

    ghost predicate Valid()
      reads this
    {
      "" !in values
    }

    constructor ()
      ensures Valid() && values == {}
    {
      values := {};
    }

    /** The empty text is never registered. */
    method Register(value: string)
      requires Valid()
      modifies this
      ensures Valid()
      ensures values == old(values) + (if value == "" then {} else {value})
    {
      if value != "" {
        values := values + {value};
      }
    }

    /** One pass over the registered values in whatever order the set yields them. */
    method Redact(text: string) returns (redacted: string, ghost order: seq<string>)
      requires Valid()
      ensures |order| == |values| && forall s :: s in order <==> s in values
      ensures "" !in order && redacted == RedactInOrder(text, order, "[REDACTED]")
      ensures (forall s | s in values :: !Touches(s, "[REDACTED]")) ==> forall s | s in values :: !Occurs(s, redacted)
      ensures (forall s | s in values :: !Occurs(s, text)) ==> redacted == text
    {
      redacted := text;
      order := [];
      var remaining := values;
      while remaining != {}
        invariant remaining <= values && forall s :: s in order <==> s in values - remaining
        invariant "" !in order && |order| + |remaining| == |values|
        invariant redacted == RedactInOrder(text, order, MARKER)
      {
        var secret :| secret in remaining;
        RedactSnoc(text, order, MARKER, secret);
        redacted := ReplaceAll(redacted, secret, MARKER);
        order := order + [secret];
        remaining := remaining - {secret};
      }
      if forall s | s in values :: !Touches(s, MARKER) {
        RedactionComplete(text, order, MARKER);
      }
      if forall s | s in values :: !Occurs(s, text) {
        CleanTextUnchanged(text, order, MARKER);
      }
    }
  }
}
