/**
 * The JavaScript string operations the bot relies on, written over `string`
 * (a sequence of `char`): `split(" ")`, `join`, `startsWith`, `toUpperCase`
 * and `substr(indexOf(" ") + 1)`.
 */
module JsString {

  /** `s.startsWith(p)` */
  predicate StartsWith(s: string, p: string)
  {
    p <= s
  }

  /** The index of the first space of `s`: `s.indexOf(" ")` when there is one. */
  function FirstSpace(s: string): (k: nat)
    requires ' ' in s
    ensures k < |s| && s[k] == ' '
    ensures ' ' !in s[..k]
  {
    if s[0] == ' ' then 0
    else
      var k := FirstSpace(s[1..]);
      assert s[..k + 1] == [s[0]] + s[1..][..k];
      k + 1
  }

  /** `s.split(" ")`: the pieces between single spaces, empty pieces kept. */
  function Split(s: string): (parts: seq<string>)
    ensures |parts| >= 1
    ensures forall i :: 0 <= i < |parts| ==> ' ' !in parts[i]
    ensures |parts| == 1 <==> ' ' !in s
    decreases |s|
  {
    if ' ' !in s then [s]
    else
      var k := FirstSpace(s);
      [s[..k]] + Split(s[k + 1..])
  }

  /** `parts.join(sep)` */
  function Join(parts: seq<string>, sep: string): string
  {
    if |parts| == 0 then ""
    else if |parts| == 1 then parts[0]
    else parts[0] + sep + Join(parts[1..], sep)
  }

  /** Joining the pieces of a split with the separator gives back the text. */
  lemma {:induction false} JoinSplit(s: string)
    ensures Join(Split(s), " ") == s
    decreases |s|
  {
    if ' ' in s {
      var head, rest := SplitAtFirstSpace(s);
      JoinSplit(rest);
      JoinCons(head, Split(rest), " ");
    }
  }

  /** A text with a space is its first piece, a space, and the rest; the split follows. */
  lemma SplitAtFirstSpace(s: string) returns (head: string, rest: string)
    requires ' ' in s
    ensures s == head + " " + rest && |rest| < |s|
    ensures Split(s) == [head] + Split(rest)
  {
    var k := FirstSpace(s);
    head, rest := s[..k], s[k + 1..];
  }

  lemma JoinCons(head: string, tail: seq<string>, sep: string)
    requires |tail| >= 1
    ensures Join([head] + tail, sep) == head + sep + Join(tail, sep)
  {
    assert ([head] + tail)[1..] == tail;
  }

  /** A non-empty join starts with its first piece. */
  lemma {:induction false} JoinStartsWithFirst(parts: seq<string>, sep: string)
    requires |parts| >= 1
    ensures parts[0] <= Join(parts, sep)
  {
    if |parts| > 1 {
      assert Join(parts, sep) == parts[0] + (sep + Join(parts[1..], sep));
    }
  }

  /** Where piece `i` of `parts.join(sep)` starts: the pieces before it, each followed by `sep`. */
  function Offset(parts: seq<string>, sep: string, i: nat): nat
    requires i <= |parts|
  {
    if i == 0 then 0 else |parts[0]| + |sep| + Offset(parts[1..], sep, i - 1)
  }

  /** Piece `i` sits at its offset in `text`, followed by `sep` unless it is the last piece. */
  ghost predicate PieceAt(text: string, parts: seq<string>, sep: string, i: nat)
    requires i < |parts|
  {
    var o := Offset(parts, sep, i);
    var e := o + |parts[i]|;
    && e <= |text| && text[o..e] == parts[i]
    && (i + 1 < |parts| ==> e + |sep| <= |text| && text[e..e + |sep|] == sep)
  }

  lemma SliceShift(p: string, t: string, x: nat, y: nat)
    requires x <= y <= |t|
    ensures (p + t)[|p| + x..|p| + y] == t[x..y]
  {
  }

  /** Piece `i` of a join sits at its offset, followed by the separator unless it is the last. */
  lemma {:induction false} JoinPieceAt(parts: seq<string>, sep: string, i: nat)
    requires i < |parts|
    ensures PieceAt(Join(parts, sep), parts, sep, i)
    decreases i
  {
    if |parts| > 1 {
      var tail := parts[1..];
      var t := Join(tail, sep);
      var pre := parts[0] + sep;
      var text := Join(parts, sep);
      assert text == pre + t;
      if i == 0 {
        assert text[..|parts[0]|] == parts[0];
        assert text[|parts[0]|..|pre|] == sep;
      } else {
        JoinPieceAt(tail, sep, i - 1);
        var o := Offset(tail, sep, i - 1);
        var e := o + |tail[i - 1]|;
        assert Offset(parts, sep, i) == |pre| + o;
        assert tail[i - 1] == parts[i];
        SliceShift(pre, t, o, e);
        if i + 1 < |parts| {
          SliceShift(pre, t, e, e + |sep|);
        }
      }
    }
  }

  lemma {:induction false} JoinLength(parts: seq<string>, sep: string)
    requires |parts| >= 1
    ensures |Join(parts, sep)| == Offset(parts, sep, |parts| - 1) + |parts[|parts| - 1]|
  {
    if |parts| > 1 {
      var tail := parts[1..];
      JoinLength(tail, sep);
      assert Join(parts, sep) == parts[0] + sep + Join(tail, sep);
      assert Offset(parts, sep, |parts| - 1) == |parts[0]| + |sep| + Offset(tail, sep, |tail| - 1);
      assert parts[|parts| - 1] == tail[|tail| - 1];
    }
  }

  /** The offset past the last piece is that piece's offset plus the piece and a separator. */
  lemma {:induction false} OffsetOfEnd(parts: seq<string>, sep: string)
    requires |parts| >= 1
    ensures Offset(parts, sep, |parts|) == Offset(parts, sep, |parts| - 1) + |parts[|parts| - 1]| + |sep|
  {
    if |parts| > 1 {
      var tail := parts[1..];
      OffsetOfEnd(tail, sep);
      assert parts[|parts| - 1] == tail[|tail| - 1];
    }
  }

  /**
   * The layout of a join: every piece at its offset, the separator between
   * consecutive pieces, and nothing after the last piece.
   */
  lemma JoinLayout(parts: seq<string>, sep: string)
    requires |parts| >= 1
    ensures |Join(parts, sep)| == Offset(parts, sep, |parts| - 1) + |parts[|parts| - 1]|
    ensures forall i :: 0 <= i < |parts| ==> PieceAt(Join(parts, sep), parts, sep, i)
  {
    JoinLength(parts, sep);
    forall i | 0 <= i < |parts| {
      JoinPieceAt(parts, sep, i);
    }
  }

  /** The first space of `head + " " + tail` is the one after `head` when `head` has none. */
  lemma {:induction false} FirstSpaceAfterHead(head: string, tail: string)
    requires ' ' !in head
    ensures FirstSpace(head + " " + tail) == |head|
  {
    if |head| > 0 {
      assert (head + " " + tail)[1..] == head[1..] + " " + tail;
      FirstSpaceAfterHead(head[1..], tail);
    }
  }

  /** Splitting a join of space-free pieces gives back the pieces. */
  lemma {:induction false} SplitJoin(parts: seq<string>)
    requires |parts| >= 1
    requires forall i :: 0 <= i < |parts| ==> ' ' !in parts[i]
    ensures Split(Join(parts, " ")) == parts
  {
    if |parts| > 1 {
      SplitAfterHead(parts[0], Join(parts[1..], " "));
      SplitJoin(parts[1..]);
      assert parts == [parts[0]] + parts[1..];
    }
  }

  /** Splitting a space-free piece, a space and a rest gives the piece, then the rest's split. */
  lemma SplitAfterHead(head: string, rest: string)
    requires ' ' !in head
    ensures Split(head + " " + rest) == [head] + Split(rest)
  {
    var s := head + " " + rest;
    assert s[|head|] == ' ';
    FirstSpaceAfterHead(head, rest);
    assert s[..|head|] == head;
    assert s[|head| + 1..] == rest;
  }

  /** `s.split(" ")[0]`: the text before the first space. */
  function FirstToken(s: string): (t: string)
    ensures t <= s
    ensures ' ' !in t
    ensures ' ' !in s ==> t == s
  {
    Split(s)[0]
  }

  /** `s.substr(s.indexOf(" ") + 1)`: the text after the first space, or all of it. */
  function AfterFirstSpace(s: string): (rest: string)
    ensures ' ' in s ==> FirstToken(s) + " " + rest == s
    ensures ' ' !in s ==> rest == s
  {
    if ' ' in s then s[FirstSpace(s) + 1..] else s
  }

  /** `toUpperCase` on one character, for the ASCII letters. */
  function UpperChar(c: char): char
  {
    if 'a' <= c <= 'z' then (c as int - 32) as char else c
  }

  /** `toUpperCase` for ASCII text: position by position, so the length is kept. */
  function ToUpper(s: string): (u: string)
    ensures |u| == |s|
    ensures forall i :: 0 <= i < |s| ==> u[i] == UpperChar(s[i])
  {
    seq(|s|, i requires 0 <= i < |s| => UpperChar(s[i]))
  }
}
