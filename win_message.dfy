/**
 * utils/strings.js: `winMessageBuilder`, which puts the winner's name where
 * the custom win message says "$user". `replaceAll` with a string pattern
 * scans the message once, left to right, and never rescans what it inserted.
 */
module WinMessage {

  const PLACEHOLDER := "$user"

  /**
   * In a replacement string JavaScript reads `$$`, `$&`, `` $` `` and `$'`
   * as patterns; a winner's name without them is inserted as it is.
   */
  predicate PlainReplacement(winner: string)
  {
    forall i :: 0 <= i < |winner| - 1 && winner[i] == '$' ==> winner[i + 1] !in {'$', '&', '`', '\''}
  }

  /** `msg` has the placeholder at position `i`. */
  predicate PlaceholderAt(msg: string, i: int)
  {
    0 <= i && i + |PLACEHOLDER| <= |msg| && msg[i..i + |PLACEHOLDER|] == PLACEHOLDER
  }

  /** The number of placeholders `replaceAll` finds, scanning left to right without overlap. */
  function Occurrences(msg: string): nat
  {
    if |msg| < |PLACEHOLDER| then 0
    else if msg[..|PLACEHOLDER|] == PLACEHOLDER then 1 + Occurrences(msg[|PLACEHOLDER|..])
    else Occurrences(msg[1..])
  }

  /** `winMessage.replaceAll('$user', winner)` */
  function WinMessageBuilder(winner: string, msg: string): (text: string)
    requires PlainReplacement(winner)
    ensures |text| == |msg| + Occurrences(msg) * (|winner| - |PLACEHOLDER|)
  {
    if |msg| < |PLACEHOLDER| then msg
    else if msg[..|PLACEHOLDER|] == PLACEHOLDER then
      var rest := msg[|PLACEHOLDER|..];
      var d := |winner| - |PLACEHOLDER|;
      assert (1 + Occurrences(rest)) * d == d + Occurrences(rest) * d;
      winner + WinMessageBuilder(winner, rest)
    else [msg[0]] + WinMessageBuilder(winner, msg[1..])
  }

  /** A message without a placeholder anywhere comes back unchanged. */
  lemma {:induction false} NoPlaceholderUnchanged(winner: string, msg: string)
    requires PlainReplacement(winner)
    requires forall i :: !PlaceholderAt(msg, i)
    ensures WinMessageBuilder(winner, msg) == msg
    ensures Occurrences(msg) == 0
  {
    if |msg| >= |PLACEHOLDER| {
      assert !PlaceholderAt(msg, 0);
      forall i
        ensures !PlaceholderAt(msg[1..], i)
      {
        if PlaceholderAt(msg[1..], i) {
          assert msg[1..][i..i + |PLACEHOLDER|] == msg[i + 1..i + 1 + |PLACEHOLDER|];
          assert PlaceholderAt(msg, i + 1);
        }
      }
      NoPlaceholderUnchanged(winner, msg[1..]);
      assert msg == [msg[0]] + msg[1..];
    }
  }

  /**
   * The first placeholder, after a prefix `p` that holds none, is replaced by
   * the winner's name and the scan carries on after it. With
   * `NoPlaceholderUnchanged` this fixes the result for every message: each
   * placeholder found, left to right, becomes the name, and all other text stays.
   */
  lemma {:induction false} FirstPlaceholderReplaced(winner: string, p: string, rest: string)
    requires PlainReplacement(winner)
    requires forall k :: 0 <= k < |p| ==> !PlaceholderAt(p + PLACEHOLDER + rest, k)
    ensures WinMessageBuilder(winner, p + PLACEHOLDER + rest) == p + winner + WinMessageBuilder(winner, rest)
  {
    var m := p + PLACEHOLDER + rest;
    if |p| == 0 {
      assert m == PLACEHOLDER + rest;
      assert m[..|PLACEHOLDER|] == PLACEHOLDER;
      assert m[|PLACEHOLDER|..] == rest;
    } else {
      var q := p[1..];
      assert !PlaceholderAt(m, 0);
      assert m[1..] == q + PLACEHOLDER + rest;
      assert m == p + (PLACEHOLDER + rest);
      assert q + PLACEHOLDER + rest == q + (PLACEHOLDER + rest);
      NoPlaceholderInTail(p, PLACEHOLDER + rest);
      assert m[..|PLACEHOLDER|] != PLACEHOLDER;
      calc {
        WinMessageBuilder(winner, m);
        [m[0]] + WinMessageBuilder(winner, q + PLACEHOLDER + rest);
        { FirstPlaceholderReplaced(winner, q, rest); }
        [p[0]] + (q + winner + WinMessageBuilder(winner, rest));
        { assert p == [p[0]] + q; }
        p + winner + WinMessageBuilder(winner, rest);
      }
    }
  }

  /** Dropping the first character of `p` keeps `p` free of placeholders. */
  lemma NoPlaceholderInTail(p: string, tail: string)
    requires |p| > 0
    requires forall k :: 0 <= k < |p| ==> !PlaceholderAt(p + tail, k)
    ensures forall k :: 0 <= k < |p| - 1 ==> !PlaceholderAt(p[1..] + tail, k)
  {
    forall k | 0 <= k < |p| - 1
      ensures !PlaceholderAt(p[1..] + tail, k)
    {
      var t, t' := p + tail, p[1..] + tail;
      assert !PlaceholderAt(t, k + 1);
      assert t' == t[1..];
      if k + |PLACEHOLDER| <= |t'| {
        assert t'[k..k + |PLACEHOLDER|] == t[k + 1..k + 1 + |PLACEHOLDER|];
      }
    }
  }

  /**
   * A winner called "$user" leaves every message as it is: the inserted name
   * is not scanned again.
   */
  lemma {:induction false} InsertedNameNotRescanned(msg: string)
    ensures PlainReplacement(PLACEHOLDER)
    ensures WinMessageBuilder(PLACEHOLDER, msg) == msg
  {
    if |msg| >= |PLACEHOLDER| {
      if msg[..|PLACEHOLDER|] == PLACEHOLDER {
        InsertedNameNotRescanned(msg[|PLACEHOLDER|..]);
        assert msg == msg[..|PLACEHOLDER|] + msg[|PLACEHOLDER|..];
      } else {
        InsertedNameNotRescanned(msg[1..]);
        assert msg == [msg[0]] + msg[1..];
      }
    }
  }

  /** An empty name deletes each placeholder found: a leading one goes, and the text shrinks by five per placeholder. */
  lemma EmptyWinnerDeletes(msg: string)
    ensures WinMessageBuilder("", PLACEHOLDER + msg) == WinMessageBuilder("", msg)
    ensures |WinMessageBuilder("", msg)| == |msg| - |PLACEHOLDER| * Occurrences(msg)
  {
    var m := PLACEHOLDER + msg;
    assert m[..|PLACEHOLDER|] == PLACEHOLDER;
    assert m[|PLACEHOLDER|..] == msg;
  }
}
