/**
 * Text and its lines: the flat command script that AddInput accumulates,
 * reading it back line by line, and the line count Python's text-mode file
 * iteration gives (universal newlines).
 */
module Lines {

  /** The flat text of a list of commands, each followed by '\n'. */
  function Flatten(lines: seq<string>): string
  {
    if lines == [] then "" else lines[0] + "\n" + Flatten(lines[1..])
  }

  lemma {:induction false} FlattenAppend(a: seq<string>, b: seq<string>)
    ensures Flatten(a + b) == Flatten(a) + Flatten(b)
    decreases |a|
  {
    if a != [] {
      assert (a + b)[0] == a[0] && (a + b)[1..] == a[1..] + b;
      FlattenAppend(a[1..], b);
    } else {
      assert a + b == b;
    }
  }

  /** The text grows by one command and its newline when a line is added. */
  lemma FlattenSnoc(lines: seq<string>, cmd: string)
    ensures Flatten(lines + [cmd]) == Flatten(lines) + cmd + "\n"
  {
    FlattenAppend(lines, [cmd]);
    assert Flatten([cmd]) == cmd + "\n" + Flatten([]);
  }

  /** Position of the first '\n' in t, or |t| when there is none. */
  function FirstNewline(t: string): (r: nat)
    ensures r <= |t|
    ensures forall k :: 0 <= k < r ==> t[k] != '\n'
    ensures r < |t| ==> t[r] == '\n'
    decreases |t|
  {
    if t == "" || t[0] == '\n' then 0 else 1 + FirstNewline(t[1..])
  }

  /** The lines a reader takes from a text, splitting on '\n'; a final line
      without a terminator is still a line. */
  function ReadLines(t: string): seq<string>
    decreases |t|
  {
    if t == "" then []
    else
      var k := FirstNewline(t);
      [t[..k]] + (if k < |t| then ReadLines(t[k + 1..]) else [])
  }

  predicate NoNewlines(lines: seq<string>)
  {
    forall i :: 0 <= i < |lines| ==> '\n' !in lines[i]
  }

  /** Reading the flat script back yields exactly the commands that were
      added, as long as no command holds a newline of its own. */
  lemma {:induction false} ReadFlatten(lines: seq<string>)
    requires NoNewlines(lines)
    ensures ReadLines(Flatten(lines)) == lines
    decreases |lines|
  {
    if lines != [] {
      var l := lines[0];
      var t := Flatten(lines);
      var rest := Flatten(lines[1..]);
      assert t == l + "\n" + rest;
      var k := FirstNewline(t);
      assert t[|l|] == '\n';
      assert k == |l|;
      assert t[..k] == l;
      assert t[k + 1..] == rest;
      ReadFlatten(lines[1..]);
    }
  }

  /** Length of the first line of a non-empty text, its terminator included;
      '\n', '\r\n' and a lone '\r' each end a line. */
  function FirstLineLength(c: string): (n: nat)
    requires c != ""
    ensures 0 < n <= |c|
    decreases |c|
  {
    if c[0] == '\n' then 1
    else if c[0] == '\r' then (if |c| > 1 && c[1] == '\n' then 2 else 1)
    else if |c| == 1 then 1
    else 1 + FirstLineLength(c[1..])
  }

  /** `len([l for l in open(path, 'r')])` for a file holding c. */
  function CountLines(c: string): (n: nat)
    ensures n <= |c|
    ensures n == 0 <==> c == ""
    decreases |c|
  {
    if c == "" then 0 else 1 + CountLines(c[FirstLineLength(c)..])
  }

  /** A line ends at position i of c. */
  predicate EndsLineAt(c: string, i: nat)
    requires i < |c|
  {
    c[i] == '\n' || (c[i] == '\r' && (i + 1 == |c| || c[i + 1] != '\n'))
  }

  lemma {:induction false} FirstLineIsAll(c: string)
    requires c != ""
    ensures FirstLineLength(c) == |c| <==> forall i :: 0 <= i < |c| - 1 ==> !EndsLineAt(c, i)
    decreases |c|
  {
    if c[0] == '\n' || c[0] == '\r' {
      if |c| > 1 && FirstLineLength(c) == 1 {
        assert EndsLineAt(c, 0);
      } else if FirstLineLength(c) == 2 && |c| > 2 {
        assert EndsLineAt(c, 1);
      }
    } else if |c| > 1 {
      var t := c[1..];
      FirstLineIsAll(t);
      assert forall i :: 0 <= i < |t| ==> (EndsLineAt(t, i) <==> EndsLineAt(c, i + 1));
      assert !EndsLineAt(c, 0);
      if forall i :: 0 <= i < |t| - 1 ==> !EndsLineAt(t, i) {
        forall i | 0 <= i < |c| - 1 ensures !EndsLineAt(c, i) {
          if i > 0 {
            assert !EndsLineAt(t, i - 1);
          }
        }
      }
    }
  }

  /** A text has fewer than two lines exactly when no line ends before its
      last character. */
  lemma FewerThanTwoLines(c: string)
    ensures CountLines(c) < 2 <==> forall i :: 0 <= i < |c| - 1 ==> !EndsLineAt(c, i)
  {
    if c != "" {
      var rest := c[FirstLineLength(c)..];
      assert CountLines(rest) == 0 <==> rest == "";
      FirstLineIsAll(c);
    }
  }
}
