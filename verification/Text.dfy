/** The few text routines the controller relies on: splitting command output
    into lines and fields, joining them again, and decimal numbers. */
module Text {

  datatype Option<+T> = None | Some(value: T)

  /** `strings.Join(lines, "\n")` */
  function JoinLines(lines: seq<string>): string {
    if |lines| == 0 then ""
    else if |lines| == 1 then lines[0]
    else lines[0] + "\n" + JoinLines(lines[1..])
  }

  /** `strings.Split(text, "\n")`: always at least one line. */
  function SplitLines(text: string): (lines: seq<string>)
    ensures |lines| >= 1
    ensures forall k :: 0 <= k < |lines| ==> '\n' !in lines[k]
    ensures JoinLines(lines) == text
  {
    if text == "" then [""]
    else
      var rest := SplitLines(text[1..]);
      if text[0] == '\n' then [""] + rest
      else
        var lines := [[text[0]] + rest[0]] + rest[1..];
        assert |rest| > 1 ==> rest[1..] == lines[1..];
        lines
  }

  lemma {:induction false} SplitOneLine(line: string)
    requires '\n' !in line
    ensures SplitLines(line) == [line]
  {
    if line != "" {
      SplitOneLine(line[1..]);
      assert [line[0]] + line[1..] == line;
    }
  }

  lemma {:induction false} SplitFirstLine(line: string, text: string)
    requires '\n' !in line
    ensures SplitLines(line + "\n" + text) == [line] + SplitLines(text)
  {
    var whole := line + "\n" + text;
    if line == "" {
      assert whole[1..] == text;
    } else {
      SplitFirstLine(line[1..], text);
      assert whole[1..] == line[1..] + "\n" + text;
      assert [line[0]] + line[1..] == line;
    }
  }

  /** Splitting undoes joining, except that no line at all reads back as one
      empty line. */
  lemma {:induction false} SplitOfJoin(lines: seq<string>)
    requires forall k :: 0 <= k < |lines| ==> '\n' !in lines[k]
    ensures SplitLines(JoinLines(lines)) == if lines == [] then [""] else lines
  {
    if |lines| == 1 {
      SplitOneLine(lines[0]);
    } else if |lines| > 1 {
      SplitOfJoin(lines[1..]);
      SplitFirstLine(lines[0], JoinLines(lines[1..]));
    }
  }

  /** White space as `strings.Fields` sees it in ASCII text. */
  predicate IsSpace(c: char) {
    c in {' ', '\t', '\n', '\U{0b}', '\U{0c}', '\r'}
  }

  function LeadingSpaces(s: string): (n: nat)
    ensures n <= |s| && (n < |s| ==> !IsSpace(s[n]))
  {
    if s != "" && IsSpace(s[0]) then 1 + LeadingSpaces(s[1..]) else 0
  }

  function WordLength(s: string): (n: nat)
    ensures n <= |s| && (s != "" && !IsSpace(s[0]) ==> n > 0)
  {
    if s != "" && !IsSpace(s[0]) then 1 + WordLength(s[1..]) else 0
  }

  /** `strings.Fields(line)` */
  function Fields(line: string): (f: seq<string>)
    ensures line == "" ==> f == []
    ensures forall k :: 0 <= k < |f| ==> f[k] != ""
    decreases |line|
  {
    var rest := line[LeadingSpaces(line)..];
    if rest == "" then []
    else
      var n := WordLength(rest);
      [rest[..n]] + Fields(rest[n..])
  }

  /** `strings.Join(fields, " ")` */
  function JoinFields(fields: seq<string>): string {
    if |fields| == 0 then ""
    else if |fields| == 1 then fields[0]
    else fields[0] + " " + JoinFields(fields[1..])
  }

  predicate HasPrefix(s: string, prefix: string) {
    prefix <= s
  }

  function TrimColon(s: string): string {
    if s != "" && s[|s| - 1] == ':' then s[..|s| - 1] else s
  }

  predicate IsDigit(c: char) {
    '0' <= c <= '9'
  }

  /** `strconv.FormatUint(n, 10)` */
  function FormatUint(n: nat): (s: string)
    ensures s != ""
    ensures forall k :: 0 <= k < |s| ==> IsDigit(s[k])
    ensures DecimalValue(s) == n
  {
    var last := ['0' + (n % 10) as char];
    if n < 10 then last else
      var s := FormatUint(n / 10) + last;
      assert s[..|s| - 1] == FormatUint(n / 10);
      s
  }

  function DecimalValue(s: string): nat
    requires forall k :: 0 <= k < |s| ==> IsDigit(s[k])
  {
    if s == "" then 0
    else
      assert IsDigit(s[|s| - 1]);
      DecimalValue(s[..|s| - 1]) * 10 + (s[|s| - 1] as int - '0' as int)
  }

  const UINT32_LIMIT: nat := 0x1_0000_0000

  /** `strconv.ParseUint(s, 10, 32)`, None standing for its error. */
  function ParseUint32(s: string): Option<nat> {
    if s == "" || exists k :: 0 <= k < |s| && !IsDigit(s[k]) then None
    else if DecimalValue(s) < UINT32_LIMIT then Some(DecimalValue(s))
    else None
  }

  lemma ParseOfFormat(n: nat)
    requires n < UINT32_LIMIT
    ensures ParseUint32(FormatUint(n)) == Some(n)
    ensures ParseUint32(TrimColon(FormatUint(n) + ":")) == Some(n)
  {
    var s := FormatUint(n);
    assert (s + ":")[..|s|] == s;
  }
}
