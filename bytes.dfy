/** Byte strings and the `/`-join that turns the list of pieces into the printed line. */
module Bytes {

  /** One byte of a UTF-8 encoded Rust `String`. */
  newtype byte = x: int | 0 <= x < 256

  const Slash: byte := 0x2F
  const Dot: byte := 0x2E
  const Tilde: byte := 0x7E

  predicate IsAscii(s: string) {
    forall i :: 0 <= i < |s| ==> s[i] < 128 as char
  }

  /** The UTF-8 bytes of an ASCII string: one byte per character, same code. */
  function Ascii(s: string): seq<byte>
    requires IsAscii(s)
  {
    seq(|s|, i requires 0 <= i < |s| => s[i] as int as byte)
  }

  /** Encoding distributes over concatenation. */
  lemma AsciiAppend(a: string, b: string)
    requires IsAscii(a) && IsAscii(b)
    ensures IsAscii(a + b) && Ascii(a + b) == Ascii(a) + Ascii(b)
  {
  }

  /** The pieces laid end to end with one `/` between neighbours, as `join("/")`
      on a vector of strings; no pieces give the empty string. */
  function Join(ps: seq<seq<byte>>): seq<byte> {
    if |ps| == 0 then []
    else if |ps| == 1 then ps[0]
    else ps[0] + [Slash] + Join(ps[1..])
  }

  /** The string cut at every `/`, as `split('/')`: always at least one piece,
      the empty string giving one empty piece. */
  function Split(s: seq<byte>): (r: seq<seq<byte>>)
    ensures |r| >= 1
  {
    if |s| == 0 then [[]]
    else
      var rest := Split(s[1..]);
      if s[0] == Slash then [[]] + rest
      else [[s[0]] + rest[0]] + rest[1..]
  }

  /** A slash-free head joins the first piece of whatever follows it. */
  lemma {:induction false} SplitSlashFree(a: seq<byte>, t: seq<byte>)
    requires Slash !in a
    ensures Split(a + t) == [a + Split(t)[0]] + Split(t)[1..]
  {
    if a != [] {
      assert (a + t)[0] == a[0];
      assert (a + t)[1..] == a[1..] + t;
      SplitSlashFree(a[1..], t);
      assert [a[0]] + (a[1..] + Split(t)[0]) == a + Split(t)[0];
    } else {
      assert a + t == t && [] + Split(t)[0] == Split(t)[0];
      assert Split(t) == [Split(t)[0]] + Split(t)[1..];
    }
  }

  /** Splitting the joined line gives back the pieces, one for one, when no piece holds a `/`. */
  lemma {:induction false} SplitJoin(ps: seq<seq<byte>>)
    requires |ps| >= 1
    requires forall i :: 0 <= i < |ps| ==> Slash !in ps[i]
    ensures Split(Join(ps)) == ps
  {
    if |ps| == 1 {
      SplitSlashFree(ps[0], []);
      assert ps[0] + [] == ps[0];
    } else {
      var tail := [Slash] + Join(ps[1..]);
      assert Join(ps) == ps[0] + tail;
      SplitSlashFree(ps[0], tail);
      SplitJoin(ps[1..]);
      assert tail[0] == Slash && tail[1..] == Join(ps[1..]);
      assert Split(tail) == [[]] + ps[1..];
      assert ps[0] + [] == ps[0];
    }
  }

  /** The joined line begins with the first piece. */
  lemma JoinStartsWithFirst(ps: seq<seq<byte>>)
    requires |ps| >= 1
    ensures ps[0] <= Join(ps)
    ensures |ps| > 1 ==> |Join(ps)| > |ps[0]| && Join(ps)[|ps[0]|] == Slash
  {
  }

  /** The joined line ends with the last piece, unaltered. */
  lemma {:induction false} JoinEndsWithLast(ps: seq<seq<byte>>)
    requires |ps| >= 1
    ensures |ps[|ps| - 1]| <= |Join(ps)|
    ensures Join(ps)[|Join(ps)| - |ps[|ps| - 1]|..] == ps[|ps| - 1]
  {
    if |ps| > 1 {
      JoinEndsWithLast(ps[1..]);
      var j := Join(ps[1..]);
      var last := ps[|ps| - 1];
      assert ps[1..][|ps[1..]| - 1] == last;
      assert Join(ps) == ps[0] + [Slash] + j;
      assert Join(ps)[|Join(ps)| - |last|..] == j[|j| - |last|..];
    }
  }
}
