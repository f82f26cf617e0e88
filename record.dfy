/** The per-cycle record: comma-separated fields of fixed widths. A header line and a
    data line of one sensor are aligned when they split into fields of the same widths. */
module Record {
  import opened Format

  /** The fields written one after another with a comma between each two. */
  function Join(fields: seq<string>): (line: string)
    ensures |fields| == 1 ==> line == fields[0]
  {
    if |fields| == 0 then ""
    else if |fields| == 1 then fields[0]
    else fields[0] + "," + Join(fields[1..])
  }

  /** The fields of a line: the texts between its commas (a line has at least one). */
  function Split(line: string): (fields: seq<string>)
    ensures |fields| >= 1
  {
    if line == [] then [""]
    else
      var rest := Split(line[1..]);
      if line[0] == ',' then [""] + rest else [[line[0]] + rest[0]] + rest[1..]
  }

  /** The width of each field. */
  function Widths(fields: seq<string>): (w: seq<nat>)
    ensures |w| == |fields|
    ensures forall i :: 0 <= i < |fields| ==> w[i] == |fields[i]|
  {
    if fields == [] then [] else [|fields[0]|] + Widths(fields[1..])
  }

  /** The line's fields have exactly the given widths, so its commas sit at fixed columns. */
  predicate HasLayout(line: string, widths: seq<nat>)
  {
    Widths(Split(line)) == widths
  }

  /** The line is blank apart from its commas. */
  predicate IsBlankLine(line: string)
  {
    forall i :: 0 <= i < |line| ==> line[i] == ' ' || line[i] == ','
  }

  /** A field without a comma is one field; it extends the first field of what follows it. */
  lemma {:induction false} SplitPrefix(f: string, rest: string)
    requires NoComma(f)
    ensures Split(f + rest)[0] == f + Split(rest)[0]
    ensures Split(f + rest)[1..] == Split(rest)[1..]
  {
    if f != [] {
      assert (f + rest)[1..] == f[1..] + rest;
      SplitPrefix(f[1..], rest);
    } else {
      assert f + rest == rest;
    }
  }

  /** Splitting undoes joining, as long as no field holds a comma. */
  lemma {:induction false} SplitJoin(fields: seq<string>)
    requires |fields| >= 1
    requires forall i :: 0 <= i < |fields| ==> NoComma(fields[i])
    ensures Split(Join(fields)) == fields
  {
    if |fields| == 1 {
      SplitPrefix(fields[0], "");
      assert fields[0] + "" == fields[0];
      var parts := Split(fields[0]);
      assert parts == [parts[0]] + parts[1..];
    } else {
      var tail := "," + Join(fields[1..]);
      assert Join(fields) == fields[0] + tail;
      SplitPrefix(fields[0], tail);
      assert Split(tail) == [""] + Split(Join(fields[1..])) by {
        assert tail[1..] == Join(fields[1..]);
      }
      SplitJoin(fields[1..]);
      var parts := Split(Join(fields));
      assert parts == [parts[0]] + parts[1..];
      assert fields[0] + "" == fields[0];
      assert fields == [fields[0]] + fields[1..];
    }
  }

  /** Two fields written with a comma between them split back into those fields. */
  lemma SplitTwo(a: string, b: string)
    requires NoComma(a) && NoComma(b)
    ensures Split(a + "," + b) == [a, b]
    ensures Widths([a, b]) == [|a|, |b|]
  {
    var fields := [a, b];
    assert Join(fields[1..]) == b;
    assert Join(fields) == a + "," + b;
    SplitJoin(fields);
  }

  /** Three fields written with commas between them split back into those fields. */
  lemma SplitThree(a: string, b: string, c: string)
    requires NoComma(a) && NoComma(b) && NoComma(c)
    ensures Split(a + "," + b + "," + c) == [a, b, c]
    ensures Widths([a, b, c]) == [|a|, |b|, |c|]
  {
    var fields := [a, b, c];
    assert Join(fields[2..]) == c;
    assert Join(fields[1..]) == b + "," + c;
    assert Join(fields) == a + "," + b + "," + c;
    SplitJoin(fields);
  }

  /** Blank fields joined by commas make a blank line. */
  lemma BlankTwo(a: string, b: string)
    requires IsBlankLine(a) && IsBlankLine(b)
    ensures IsBlankLine(a + "," + b)
  {
  }

  lemma BlankThree(a: string, b: string, c: string)
    requires IsBlankLine(a) && IsBlankLine(b) && IsBlankLine(c)
    ensures IsBlankLine(a + "," + b + "," + c)
  {
  }
}
