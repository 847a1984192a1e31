/** The .NET string operations the controller relies on, over `seq<char>`. */
module Text {
  import opened Common

  /** `char.ToLower` on the characters that matter here: A-Z become a-z, every other character is kept. */
  function LowerChar(c: char): char
  {
    if 'A' <= c <= 'Z' then (c as int + 32) as char else c
  }

  /** `string.ToLower`: lower-cases each character in place. The result has the input's length
      and no capital letter left. */
  function ToLower(s: string): (r: string)
    ensures |r| == |s|
    ensures forall i :: 0 <= i < |r| ==> !('A' <= r[i] <= 'Z')
  {
    seq(|s|, i requires 0 <= i < |s| => LowerChar(s[i]))
  }

  /** The character at a position of the lower-cased text. */
  lemma ToLowerAt(s: string, i: nat)
    requires i < |s|
    ensures ToLower(s)[i] == LowerChar(s[i])
  {
  }

  /** Lower-casing twice is lower-casing once. */
  lemma ToLowerIdempotent(s: string)
    ensures ToLower(ToLower(s)) == ToLower(s)
  {
    var once := ToLower(s);
    assert forall i :: 0 <= i < |once| ==> LowerChar(once[i]) == once[i];
  }

  /** `char.IsWhiteSpace`: the Unicode White_Space characters. */
  predicate IsWhiteSpace(c: char)
  {
    var n := c as int;
    (0x09 <= n <= 0x0D) || n == 0x20 || n == 0x85 || n == 0xA0 || n == 0x1680
    || (0x2000 <= n <= 0x200A) || n == 0x2028 || n == 0x2029 || n == 0x202F
    || n == 0x205F || n == 0x3000
  }

  /** `string.IsNullOrWhiteSpace`. */
  predicate IsNullOrWhiteSpace(s: Option<string>)
  {
    s.Null? || forall i :: 0 <= i < |s.value| ==> IsWhiteSpace(s.value[i])
  }

  /** `string.Join("\n", lines)`: the lines with one newline between neighbours. */
  function Join(lines: seq<string>): string
  {
    if |lines| == 0 then ""
    else if |lines| == 1 then lines[0]
    else lines[0] + "\n" + Join(lines[1..])
  }

  /** Splitting a text at every newline; the inverse of `Join` on lines without newlines. */
  function Split(text: string): (r: seq<string>)
    ensures |r| >= 1
  {
    if |text| == 0 then [""]
    else
      var rest := Split(text[1..]);
      if text[0] == '\n' then [""] + rest
      else [[text[0]] + rest[0]] + rest[1..]
  }

  /** A line of a text file: it holds no newline. */
  predicate IsLine(s: string)
  {
    forall i :: 0 <= i < |s| ==> s[i] != '\n'
  }

  /** Splitting a text that starts with a line and a newline yields that line, then the rest. */
  lemma {:induction false} SplitAfterLine(line: string, rest: string)
    requires IsLine(line)
    ensures Split(line + "\n" + rest) == [line] + Split(rest)
  {
    if |line| > 0 {
      assert (line + "\n" + rest)[1..] == line[1..] + "\n" + rest;
      SplitAfterLine(line[1..], rest);
      assert [line[0]] + line[1..] == line;
    } else {
      assert line + "\n" + rest == "\n" + rest;
    }
  }

  /** A single line splits to itself. */
  lemma {:induction false} SplitLine(line: string)
    requires IsLine(line)
    ensures Split(line) == [line]
  {
    if |line| > 0 {
      SplitLine(line[1..]);
      assert [line[0]] + line[1..] == line;
    }
  }

  /** Joining lines and splitting the text at newlines gives the lines back. */
  lemma {:induction false} SplitJoin(lines: seq<string>)
    requires |lines| >= 1
    requires forall k :: 0 <= k < |lines| ==> IsLine(lines[k])
    ensures Split(Join(lines)) == lines
  {
    if |lines| == 1 {
      SplitLine(lines[0]);
    } else {
      SplitAfterLine(lines[0], Join(lines[1..]));
      SplitJoin(lines[1..]);
      assert [lines[0]] + lines[1..] == lines;
    }
  }
}
