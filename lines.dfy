/**
 * The two string operations on which the wire format rests: `Array.prototype.join`
 * builds a request body from serialized lines, and splitting the body at the
 * separator gives the lines back (JSON Lines).
 */
module Lines {

  /** `lines.join(sep)`: the elements in order with `sep` between neighbours; `[]` joins to "". */
  function Join(lines: seq<string>, sep: string): (r: string)
    ensures lines == [] ==> r == ""
    ensures |lines| == 1 ==> r == lines[0]
  {
    if lines == [] then ""
    else if |lines| == 1 then lines[0]
    else lines[0] + sep + Join(lines[1..], sep)
  }

  /** `s.split(sep)` for a one-character separator: the empty string splits into [""]. */
  function Split(s: string, sep: char): (r: seq<string>)
    ensures |r| >= 1
    decreases |s|
  {
    if s == [] then [""]
    else if s[0] == sep then [""] + Split(s[1..], sep)
    else
      var rest := Split(s[1..], sep);
      [[s[0]] + rest[0]] + rest[1..]
  }

  /** Joining two non-empty runs of lines puts exactly one separator between their joins. */
  lemma {:induction false} JoinAppend(a: seq<string>, b: seq<string>, sep: string)
    requires a != [] && b != []
    ensures Join(a + b, sep) == Join(a, sep) + sep + Join(b, sep)
  {
    if |a| == 1 {
      assert (a + b)[1..] == b;
    } else {
      assert (a + b)[1..] == a[1..] + b;
      JoinAppend(a[1..], b, sep);
    }
  }

  /** A prefix of a line list joins to a prefix of the whole join, followed by the separator unless it is everything. */
  lemma JoinPrefix(a: seq<string>, b: seq<string>, sep: string)
    requires a != [] && a <= b
    ensures Join(b, sep) == Join(a, sep) || Join(a, sep) + sep <= Join(b, sep)
  {
    if a != b {
      var rest := b[|a|..];
      assert b == a + rest;
      JoinAppend(a, rest, sep);
    }
  }

  /** Text without the separator stays in one piece, glued to the first piece of what follows it. */
  lemma {:induction false} SplitGlue(a: string, t: string, sep: char)
    requires sep !in a
    ensures Split(a + t, sep) == [a + Split(t, sep)[0]] + Split(t, sep)[1..]
    decreases |a|
  {
    if a != [] {
      assert (a + t)[0] == a[0];
      assert (a + t)[1..] == a[1..] + t;
      SplitGlue(a[1..], t, sep);
      assert [a[0]] + (a[1..] + Split(t, sep)[0]) == a + Split(t, sep)[0];
    } else {
      assert a + t == t;
      var r := Split(t, sep);
      assert r == [r[0]] + r[1..];
      assert a + r[0] == r[0];
    }
  }

  /** Splitting a join gives the lines back, provided none of them contains the separator. */
  lemma {:induction false} SplitJoin(lines: seq<string>, sep: char)
    requires lines != []
    requires forall i :: 0 <= i < |lines| ==> sep !in lines[i]
    ensures Split(Join(lines, [sep]), sep) == lines
    decreases |lines|
  {
    if |lines| == 1 {
      SplitGlue(lines[0], "", sep);
      assert lines[0] + "" == lines[0];
    } else {
      var tail := Join(lines[1..], [sep]);
      assert Join(lines, [sep]) == lines[0] + ([sep] + tail);
      SplitGlue(lines[0], [sep] + tail, sep);
      assert ([sep] + tail)[1..] == tail;
      SplitJoin(lines[1..], sep);
      assert Split([sep] + tail, sep) == [""] + lines[1..];
      assert lines[0] + "" == lines[0];
      assert lines == [lines[0]] + lines[1..];
    }
  }
}
