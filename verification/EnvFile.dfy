/**
 The .env reader: lines, comments, quoting and escapes, checked against a writer whose
 output it has to read back.
*/
module EnvFile {
  import opened Wrappers

  datatype Problem =
    | ShellExport | NoAssignment | EmptyName | InvalidName
    | UnterminatedDouble | UnterminatedSingle | TrailingEscape

  datatype EnvError = EnvError(line: nat, problem: Problem)

  /* ---------- characters ---------- */

  /** The Unicode White_Space property. */
  predicate White(c: char) {
    || '\t' <= c <= '\r' || c == ' ' || c == '\U{85}' || c == '\U{A0}' || c == '\U{1680}'
    || '\U{2000}' <= c <= '\U{200A}' || c == '\U{2028}' || c == '\U{2029}' || c == '\U{202F}'
    || c == '\U{205F}' || c == '\U{3000}'
  }

  predicate AsciiWhite(c: char) {
    c == ' ' || c == '\t' || c == '\n' || c == '\U{0C}' || c == '\r'
  }

  predicate Letter(c: char) {
    'a' <= c <= 'z' || 'A' <= c <= 'Z' || c == '_'
  }

  predicate NameChar(c: char) {
    Letter(c) || '0' <= c <= '9'
  }

  /* ---------- strings ---------- */

  /** The position of the first `c`, or the length when there is none. */
  function IndexOf(s: string, c: char): (k: nat)
    ensures k <= |s| && (k < |s| ==> s[k] == c) && forall i | 0 <= i < k :: s[i] != c
  {
    if s == [] || s[0] == c then 0 else 1 + IndexOf(s[1..], c)
  }

  function TrimStart(s: string): string {
    if s != [] && White(s[0]) then TrimStart(s[1..]) else s
  }

  function TrimEnd(s: string): string {
    if s != [] && White(s[|s| - 1]) then TrimEnd(s[..|s| - 1]) else s
  }

  function Trim(s: string): string {
    TrimEnd(TrimStart(s))
  }

  function WithoutReturn(line: string): string {
    if line != [] && line[|line| - 1] == '\r' then line[..|line| - 1] else line
  }

  /** The lines of a text; a newline at the end does not begin another line. */
  function Lines(raw: string): seq<string> {
    if raw == [] then []
    else
      var end := IndexOf(raw, '\n');
      if end == |raw| then [raw] else [WithoutReturn(raw[..end])] + Lines(raw[end + 1..])
  }

  /* ---------- values ---------- */

  function Prepend(head: string, tail: Result<string, Problem>): Result<string, Problem> {
    if tail.Success? then Success(head + tail.value) else tail
  }

  function Unescaped(c: char): string {
    match c
    case '\\' => "\\"
    case '\"' => "\""
    case 'n' => "\n"
    case 'r' => "\r"
    case 't' => "\t"
    case _ => ['\\', c]
  }

  /** unescape_double_quoted, read from the front. */
  function Unescape(raw: string): Result<string, Problem> {
    if raw == [] then Success("")
    else if raw[0] != '\\' then Prepend([raw[0]], Unescape(raw[1..]))
    else if |raw| == 1 then Failure(TrailingEscape)
    else Prepend(Unescaped(raw[1]), Unescape(raw[2..]))
  }

  lemma PrependTwice(first: string, second: string, tail: Result<string, Problem>)
    ensures Prepend("", tail) == tail
    ensures Prepend(first, Prepend(second, tail)) == Prepend(first + second, tail)
  {
    if tail.Success? {
      assert "" + tail.value == tail.value;
      assert first + (second + tail.value) == first + second + tail.value;
    }
  }

  method UnescapeDoubleQuoted(raw: string) returns (outcome: Result<string, Problem>)
    ensures outcome == Unescape(raw)
  {
    var output, k := "", 0;
    assert raw[0..] == raw;
    PrependTwice("", "", Unescape(raw));
    while k < |raw|
      invariant 0 <= k <= |raw|
      invariant Unescape(raw) == Prepend(output, Unescape(raw[k..]))
    {
      var c := raw[k];
      assert raw[k..][0] == c && raw[k..][1..] == raw[k + 1..];
      if c != '\\' {
        PrependTwice(output, [c], Unescape(raw[k + 1..]));
        output, k := output + [c], k + 1;
        continue;
      }
      if k + 1 == |raw| {
        return Failure(TrailingEscape);
      }
      assert raw[k..][1] == raw[k + 1] && raw[k..][2..] == raw[k + 2..];
      PrependTwice(output, Unescaped(raw[k + 1]), Unescape(raw[k + 2..]));
      output, k := output + Unescaped(raw[k + 1]), k + 2;
    }
    assert output + "" == output;
    outcome := Success(output);
  }

  /** A `#` that begins a comment: at the start of the value or after ASCII white space. */
  predicate BeginsComment(raw: string, k: nat)
    requires k < |raw|
  {
    raw[k] == '#' && (k == 0 || AsciiWhite(raw[k - 1]))
  }

  /** Where an unquoted value's comment begins, or its length. */
  function CommentStart(raw: string, from: nat): (k: nat)
    requires from <= |raw|
    ensures from <= k <= |raw|
    decreases |raw| - from
  {
    if from == |raw| || BeginsComment(raw, from) then from
    else CommentStart(raw, from + 1)
  }

  /** A comment begins at the first such `#`, and nowhere when there is none. */
  lemma {:induction false} CommentStartIsFirst(raw: string, from: nat, k: nat)
    requires from <= |raw|
    ensures k == CommentStart(raw, from) <==>
            && from <= k <= |raw|
            && (forall i | from <= i < k :: !BeginsComment(raw, i))
            && (k < |raw| ==> BeginsComment(raw, k))
    decreases |raw| - from
  {
    if from < |raw| && !BeginsComment(raw, from) {
      CommentStartIsFirst(raw, from + 1, k);
    }
  }

  /** parse_value. */
  function ParseValue(raw: string): Result<string, Problem> {
    if raw == [] then Success("")
    else if raw[0] == '\"' then
      if |raw| < 2 || raw[|raw| - 1] != '\"' then Failure(UnterminatedDouble) else Unescape(raw[1..|raw| - 1])
    else if raw[0] == '\'' then
      if |raw| < 2 || raw[|raw| - 1] != '\'' then Failure(UnterminatedSingle) else Success(raw[1..|raw| - 1])
    else Success(TrimEnd(raw[..CommentStart(raw, 0)]))
  }

  /** Single-quoted content comes back unchanged, whatever it is. */
  lemma SingleQuotesAreVerbatim(content: string)
    ensures ParseValue("'" + content + "'") == Success(content)
  {
    assert ("'" + content + "'")[1..|content| + 1] == content;
  }

  lemma {:induction false} TrimEndCuts(s: string)
    ensures var kept := TrimEnd(s);
            && |kept| <= |s| && kept == s[..|kept|] && (kept != [] ==> !White(kept[|kept| - 1]))
            && forall i | |kept| <= i < |s| :: White(s[i])
  {
    if s != [] && White(s[|s| - 1]) {
      TrimEndCuts(s[..|s| - 1]);
    }
  }

  /** An unquoted value is what stands before its comment, up to the last character that is not white space. */
  lemma UnquotedValueIsCut(raw: string, cut: nat)
    requires raw != [] && raw[0] != '\"' && raw[0] != '\''
    requires cut == CommentStart(raw, 0)
    ensures ParseValue(raw).Success?
    ensures var value := ParseValue(raw).value;
            && |value| <= cut && value == raw[..|value|] && (value != [] ==> !White(value[|value| - 1]))
            && (forall i | |value| <= i < cut :: White(raw[i]))
            && (forall i | 0 <= i < cut :: !BeginsComment(raw, i)) && (cut < |raw| ==> BeginsComment(raw, cut))
  {
    CommentStartIsFirst(raw, 0, cut);
    TrimEndCuts(raw[..cut]);
  }

  /* ---------- lines ---------- */

  predicate ValidName(name: string) {
    name != [] && Letter(name[0]) && forall c <- name :: NameChar(c)
  }

  function CheckName(name: string): Result<(), Problem> {
    if name == [] then Failure(EmptyName) else if ValidName(name) then Success(()) else Failure(InvalidName)
  }

  predicate Blank(line: string) {
    line == [] || line[0] == '#'
  }

  predicate StartsWith(s: string, prefix: string) {
    |prefix| <= |s| && s[..|prefix|] == prefix
  }

  /** One line: nothing, or an assignment. */
  function ParseLine(original: string): Result<Option<(string, string)>, Problem> {
    var line := Trim(original);
    if Blank(line) then Success(None)
    else if StartsWith(line, "export ") then Failure(ShellExport)
    else
      var equals := IndexOf(line, '=');
      if equals == |line| then Failure(NoAssignment)
      else
        var name := Trim(line[..equals]);
        match CheckName(name)
        case Failure(problem) => Failure(problem)
        case Success(_) =>
          match ParseValue(Trim(line[equals + 1..]))
          case Failure(problem) => Failure(problem)
          case Success(value) => Success(Some((name, value)))
  }

  type Values = map<string, string>

  function Assign(values: Values, assignment: Option<(string, string)>): Values {
    if assignment.Some? then values[assignment.value.0 := assignment.value.1] else values
  }

  /** The first `n` lines; the first bad one ends the parse. */
  function ParseLines(lines: seq<string>, n: nat): Result<Values, EnvError>
    requires n <= |lines|
  {
    if n == 0 then Success(map[])
    else match ParseLines(lines, n - 1)
      case Failure(error) => Failure(error)
      case Success(values) =>
        match ParseLine(lines[n - 1])
        case Failure(problem) => Failure(EnvError(n, problem))
        case Success(assignment) => Success(Assign(values, assignment))
  }

  function Parse(raw: string): Result<Values, EnvError> {
    ParseLines(Lines(raw), |Lines(raw)|)
  }

  lemma {:induction false} FailureIsFinal(lines: seq<string>, m: nat, n: nat)
    requires m <= n <= |lines| && ParseLines(lines, m).Failure?
    ensures ParseLines(lines, n) == ParseLines(lines, m)
  {
    if m < n {
      FailureIsFinal(lines, m, n - 1);
    }
  }

  /** parse_value, with the escapes read in their loop. */
  method ComputeValue(raw: string) returns (outcome: Result<string, Problem>)
    ensures outcome == ParseValue(raw)
  {
    if raw == [] {
      return Success("");
    }
    if raw[0] == '\"' {
      if |raw| < 2 || raw[|raw| - 1] != '\"' {
        return Failure(UnterminatedDouble);
      }
      outcome := UnescapeDoubleQuoted(raw[1..|raw| - 1]);
      return;
    }
    if raw[0] == '\'' {
      if |raw| < 2 || raw[|raw| - 1] != '\'' {
        return Failure(UnterminatedSingle);
      }
      return Success(raw[1..|raw| - 1]);
    }
    outcome := Success(TrimEnd(raw[..CommentStart(raw, 0)]));
  }

  /** The body of the loop over the lines. */
  method ReadLine(original: string) returns (outcome: Result<Option<(string, string)>, Problem>)
    ensures outcome == ParseLine(original)
  {
    var line := Trim(original);
    if Blank(line) {
      return Success(None);
    }
    if StartsWith(line, "export ") {
      return Failure(ShellExport);
    }
    var equals := IndexOf(line, '=');
    if equals == |line| {
      return Failure(NoAssignment);
    }
    var name := Trim(line[..equals]);
    var checked := CheckName(name);
    if checked.Failure? {
      return Failure(checked.error);
    }
    var value := ComputeValue(Trim(line[equals + 1..]));
    outcome := if value.Success? then Success(Some((name, value.value))) else Failure(value.error);
  }

  /** What one more line does to the parse. */
  lemma NextLine(lines: seq<string>, n: nat, values: Values, read: Result<Option<(string, string)>, Problem>)
    requires n < |lines| && ParseLines(lines, n) == Success(values) && read == ParseLine(lines[n])
    ensures ParseLines(lines, n + 1) ==
            if read.Failure? then Failure(EnvError(n + 1, read.error)) else Success(Assign(values, read.value))
  {
  }

  /** One turn of the loop: read the next line and insert what it assigns. */
  method TakeLine(lines: seq<string>, index: nat, values: Values) returns (next: Result<Values, EnvError>)
    requires index < |lines| && ParseLines(lines, index) == Success(values)
    ensures ParseLines(lines, index + 1) == next
  {
    var read := ReadLine(lines[index]);
    NextLine(lines, index, values, read);
    if read.Failure? {
      return Failure(EnvError(index + 1, read.error));
    }
    if read.value.None? {
      return Success(values);
    }
    var (name, value) := read.value.value;
    next := Success(values[name := value]);
  }

  /** parse_env_file. */
  method ParseEnvFile(raw: string) returns (outcome: Result<Values, EnvError>)
    ensures outcome == Parse(raw)
  {
    var lines := Lines(raw);
    outcome := Success(map[]);
    var index := 0;
    while index < |lines| && outcome.Success?
      invariant 0 <= index <= |lines|
      invariant ParseLines(lines, index) == outcome
    {
      outcome := TakeLine(lines, index, outcome.value);
      index := index + 1;
    }
    if outcome.Failure? {
      FailureIsFinal(lines, index, |lines|);
    }
  }

  /** A parse fails exactly with the first bad line's problem and number. */
  lemma {:induction false} FirstBadLineIsReported(lines: seq<string>, n: nat, error: EnvError)
    requires n <= |lines|
    ensures ParseLines(lines, n) == Failure(error) <==>
            && 1 <= error.line <= n
            && ParseLine(lines[error.line - 1]) == Failure(error.problem)
            && forall k | 0 <= k < error.line - 1 :: ParseLine(lines[k]).Success?
  {
    if n > 0 {
      FirstBadLineIsReported(lines, n - 1, error);
      if ParseLines(lines, n - 1).Failure? {
        FirstBadLineIsReported(lines, n - 1, ParseLines(lines, n - 1).error);
      } else if error.line == n {
        forall k | 0 <= k < n - 1 ensures ParseLine(lines[k]).Success? {
          SuccessNeedsGoodLines(lines, n - 1, k);
        }
      }
    }
  }

  lemma {:induction false} SuccessNeedsGoodLines(lines: seq<string>, n: nat, k: nat)
    requires k < n <= |lines| && ParseLines(lines, n).Success?
    ensures ParseLine(lines[k]).Success?
  {
    if k < n - 1 {
      SuccessNeedsGoodLines(lines, n - 1, k);
    }
  }

  /* ---------- the writer ---------- */

  function EscapeChar(c: char): string {
    match c
    case '\\' => "\\\\"
    case '\"' => "\\\""
    case '\n' => "\\n"
    case '\r' => "\\r"
    case '\t' => "\\t"
    case _ => [c]
  }

  function Escape(s: string): string {
    if s == [] then "" else EscapeChar(s[0]) + Escape(s[1..])
  }

  function Assignment(name: string, value: string): string {
    name + "=\"" + Escape(value) + "\""
  }

  function Render(pairs: seq<(string, string)>): string {
    if pairs == [] then ""
    else
      var last := pairs[|pairs| - 1];
      Render(pairs[..|pairs| - 1]) + Assignment(last.0, last.1) + "\n"
  }

  /** The map a list of assignments stands for: later ones win. */
  function MapOf(pairs: seq<(string, string)>): Values {
    if pairs == [] then map[]
    else
      var last := pairs[|pairs| - 1];
      MapOf(pairs[..|pairs| - 1])[last.0 := last.1]
  }

  /* ---------- round trips ---------- */

  lemma {:induction false} UnescapeInvertsEscape(s: string)
    ensures Unescape(Escape(s)) == Success(s)
  {
    if s != [] {
      UnescapeInvertsEscape(s[1..]);
      var head, tail := EscapeChar(s[0]), Escape(s[1..]);
      assert (head + tail)[|head|..] == tail;
      assert [s[0]] + s[1..] == s;
    }
  }

  lemma {:induction false} EscapedStaysOnOneLine(s: string)
    ensures forall c <- Escape(s) :: c != '\n' && c != '\r'
  {
    if s != [] {
      EscapedStaysOnOneLine(s[1..]);
    }
  }

  lemma TrimKeeps(s: string)
    requires s != [] && !White(s[0]) && !White(s[|s| - 1])
    ensures Trim(s) == s
  {
  }

  /** The name part of a rendered assignment. */
  lemma NameOfAssignment(name: string, value: string)
    requires ValidName(name)
    ensures var line := Assignment(name, value);
            && |name| + 3 <= |line|
            && (forall i | 0 <= i < |name| :: line[i] == name[i] && NameChar(line[i]))
            && line[..|name|] == name && line[|name|] == '='
  {
    forall i | 0 <= i < |name| ensures NameChar(name[i]) {
      assert name[i] in name;
    }
  }

  lemma NoExport(name: string, value: string)
    requires ValidName(name)
    ensures !StartsWith(Assignment(name, value), "export ")
  {
    var line := Assignment(name, value);
    NameOfAssignment(name, value);
    if |line| >= 7 {
      var k := if |name| < 7 then |name| else 6;
      assert line[..7][k] == line[k] != "export "[k];
    }
  }

  /** A quoted value is read back as what was quoted. */
  lemma QuotedIsRead(value: string)
    ensures ParseValue(Trim("\"" + Escape(value) + "\"")) == Success(value)
  {
    var quoted := "\"" + Escape(value) + "\"";
    TrimKeeps(quoted);
    assert quoted[1..|quoted| - 1] == Escape(value);
    UnescapeInvertsEscape(value);
  }

  lemma IndexOfIs(s: string, c: char, k: nat)
    requires k < |s| && s[k] == c && forall i | 0 <= i < k :: s[i] != c
    ensures IndexOf(s, c) == k
  {
  }

  /** A rendered assignment is read back as exactly that. */
  lemma AssignmentIsRead(name: string, value: string)
    requires ValidName(name)
    ensures ParseLine(Assignment(name, value)) == Success(Some((name, value)))
  {
    var line, quoted := Assignment(name, value), "\"" + Escape(value) + "\"";
    NameOfAssignment(name, value);
    TrimKeeps(line);
    NoExport(name, value);
    IndexOfIs(line, '=', |name|);
    TrimKeeps(name);
    assert line[|name| + 1..] == quoted;
    QuotedIsRead(value);
  }

  predicate WholeLines(raw: string) {
    raw == [] || raw[|raw| - 1] == '\n'
  }

  lemma {:induction false} LinesOfConcat(raw: string, more: string)
    requires WholeLines(raw)
    ensures Lines(raw + more) == Lines(raw) + Lines(more)
    decreases |raw|
  {
    if raw == [] {
      assert raw + more == more;
    } else {
      var end := IndexOf(raw, '\n');
      var all := raw + more;
      assert end < |raw| && forall i | 0 <= i <= end :: all[i] == raw[i];
      IndexOfIs(all, '\n', end);
      assert all[..end] == raw[..end];
      assert all[end + 1..] == raw[end + 1..] + more;
      LinesOfConcat(raw[end + 1..], more);
    }
  }

  lemma LinesOfAssignment(name: string, value: string)
    requires ValidName(name)
    ensures Lines(Assignment(name, value) + "\n") == [Assignment(name, value)]
  {
    var line := Assignment(name, value);
    EscapedStaysOnOneLine(value);
    NameOfAssignment(name, value);
    forall i | 0 <= i < |line| ensures line[i] != '\n' {
      if |name| + 2 <= i < |line| - 1 {
        assert line[i] == Escape(value)[i - |name| - 2];
        assert line[i] in Escape(value);
      }
    }
    var text := line + "\n";
    IndexOfIs(text, '\n', |line|);
    assert text[..|line|] == line && text[|line| + 1..] == [];
  }

  lemma {:induction false} ParseOfPrefix(lines: seq<string>, more: seq<string>, n: nat)
    requires n <= |lines|
    ensures ParseLines(lines + more, n) == ParseLines(lines, n)
  {
    if n > 0 {
      ParseOfPrefix(lines, more, n - 1);
    }
  }

  /** Whatever a file says already, an assignment appended to it sets its key and nothing else. */
  lemma AppendedAssignmentWins(raw: string, values: Values, name: string, value: string)
    requires WholeLines(raw) && Parse(raw) == Success(values) && ValidName(name)
    ensures Parse(raw + Assignment(name, value) + "\n") == Success(values[name := value])
  {
    var line := Assignment(name, value);
    assert raw + line + "\n" == raw + (line + "\n");
    LinesOfConcat(raw, line + "\n");
    LinesOfAssignment(name, value);
    var before, all := Lines(raw), Lines(raw + line + "\n");
    ParseOfPrefix(before, [line], |before|);
    AssignmentIsRead(name, value);
    assert all == before + [line] && all[|before|] == line;
    NextLine(all, |before|, values, Success(Some((name, value))));
  }

  /** What is written is read back, duplicates and all. */
  lemma {:induction false} ParseInvertsRender(pairs: seq<(string, string)>)
    requires forall k | 0 <= k < |pairs| :: ValidName(pairs[k].0)
    ensures WholeLines(Render(pairs)) && Parse(Render(pairs)) == Success(MapOf(pairs))
  {
    if pairs != [] {
      var front, last := pairs[..|pairs| - 1], pairs[|pairs| - 1];
      ParseInvertsRender(front);
      AppendedAssignmentWins(Render(front), MapOf(front), last.0, last.1);
    }
  }

  /** The `k`th pair is an entry of the map. */
  predicate EntryOf(values: Values, pairs: seq<(string, string)>, k: nat)
    requires k < |pairs|
  {
    pairs[k].0 in values && values[pairs[k].0] == pairs[k].1
  }

  predicate Names(pairs: seq<(string, string)>, name: string) {
    exists k :: 0 <= k < |pairs| && pairs[k].0 == name
  }

  lemma {:induction false} MapOfPairs(pairs: seq<(string, string)>, values: Values, name: string)
    requires forall k | 0 <= k < |pairs| :: EntryOf(values, pairs, k)
    ensures name in MapOf(pairs) <==> Names(pairs, name)
    ensures name in MapOf(pairs) ==> name in values && MapOf(pairs)[name] == values[name]
  {
    if pairs != [] {
      var front, last := pairs[..|pairs| - 1], |pairs| - 1;
      forall k | 0 <= k < |front| ensures EntryOf(values, front, k) {
        assert EntryOf(values, pairs, k);
      }
      assert EntryOf(values, pairs, last);
      MapOfPairs(front, values, name);
      assert Names(pairs, name) <==> Names(front, name) || pairs[last].0 == name;
    }
  }

  lemma MapOfListing(values: Values, pairs: seq<(string, string)>)
    requires forall name | name in values :: Names(pairs, name)
    requires forall k | 0 <= k < |pairs| :: EntryOf(values, pairs, k)
    ensures MapOf(pairs) == values
  {
    var built := MapOf(pairs);
    forall name
      ensures name in built <==> name in values
      ensures name in built ==> built[name] == values[name]
    {
      MapOfPairs(pairs, values, name);
    }
  }

  /** Any map from valid names to any strings at all survives being written out, in any order, and read back. */
  lemma MapsRoundTrip(values: Values, pairs: seq<(string, string)>)
    requires forall name | name in values :: ValidName(name) && Names(pairs, name)
    requires forall k | 0 <= k < |pairs| :: EntryOf(values, pairs, k)
    ensures Parse(Render(pairs)) == Success(values)
  {
    MapOfListing(values, pairs);
    assert forall k | 0 <= k < |pairs| :: EntryOf(values, pairs, k) && ValidName(pairs[k].0);
    ParseInvertsRender(pairs);
  }

  /* ---------- when the escapes are bad ---------- */

  /** How many backslashes the string ends with. */
  function TrailingBackslashes(s: string): (count: nat)
    ensures count <= |s|
  {
    if s == [] || s[|s| - 1] != '\\' then 0 else 1 + TrailingBackslashes(s[..|s| - 1])
  }

  lemma {:induction false} TrailingAfterFirst(s: string)
    requires s != []
    ensures var rest := TrailingBackslashes(s[1..]);
            TrailingBackslashes(s) == if rest == |s| - 1 && s[0] == '\\' then |s| else rest
  {
    if |s| > 1 && s[|s| - 1] == '\\' {
      var front := s[..|s| - 1];
      assert front[1..] == s[1..][..|s| - 2];
      TrailingAfterFirst(front);
    }
  }

  /** Double-quoted content is refused exactly when it ends in an odd number of backslashes. */
  lemma {:induction false} UnescapeFailsExactlyWhen(raw: string)
    ensures Unescape(raw).Failure? <==> TrailingBackslashes(raw) % 2 == 1
  {
    if raw != [] {
      TrailingAfterFirst(raw);
      if raw[0] != '\\' {
        UnescapeFailsExactlyWhen(raw[1..]);
      } else if |raw| > 1 {
        TrailingAfterFirst(raw[1..]);
        assert raw[1..][1..] == raw[2..];
        UnescapeFailsExactlyWhen(raw[2..]);
      }
    }
  }

  /* ---------- what a line may look like ---------- */

  predicate AllWhite(s: string) {
    forall c <- s :: White(c)
  }

  predicate Trimmed(s: string) {
    s != [] ==> !White(s[0]) && !White(s[|s| - 1])
  }

  lemma {:induction false} TrimStartDrops(a: string, s: string)
    requires AllWhite(a) && (s != [] ==> !White(s[0]))
    ensures TrimStart(a + s) == s
  {
    if a == [] {
      assert a + s == s;
    } else {
      assert (a + s)[1..] == a[1..] + s && a[0] in a;
      TrimStartDrops(a[1..], s);
    }
  }

  lemma {:induction false} TrimEndDrops(s: string, d: string)
    requires AllWhite(d) && (s != [] ==> !White(s[|s| - 1]))
    ensures TrimEnd(s + d) == s
  {
    if d == [] {
      assert s + d == s;
    } else {
      var front := d[..|d| - 1];
      assert (s + d)[..|s + d| - 1] == s + front && d[|d| - 1] in d;
      TrimEndDrops(s, front);
    }
  }

  /** Trimming takes away exactly the white space around. */
  lemma TrimIs(a: string, s: string, d: string)
    requires AllWhite(a) && AllWhite(d) && Trimmed(s)
    ensures Trim(a + s + d) == s
  {
    if s == [] {
      assert a + s + d == (a + d) + [];
      TrimStartDrops(a + d, []);
    } else {
      assert a + s + d == a + (s + d);
      TrimStartDrops(a, s + d);
      TrimEndDrops(s, d);
    }
  }

  /** The end of a string, trimmed, with the white space that went. */
  lemma EndSplits(s: string) returns (kept: string, d: string)
    ensures s == kept + d && AllWhite(d) && kept == TrimEnd(s)
    ensures kept != [] ==> !White(kept[|kept| - 1])
  {
    TrimEndCuts(s);
    kept, d := TrimEnd(s), s[|TrimEnd(s)|..];
  }

  /** What an assignment with this name and this text after its `=` stands for. */
  function Assigned(name: string, rest: string): Result<Option<(string, string)>, Problem> {
    match ParseValue(Trim(rest))
    case Failure(problem) => Failure(problem)
    case Success(value) => Success(Some((name, value)))
  }

  /**
   A line with an `=`, whatever white space surrounds its name: a comment is nothing, shell syntax and bad names are
   refused, in this order, and anything else assigns what follows the first `=`.
  */
  lemma AssignmentLineIsRead(a: string, name: string, b: string, rest: string)
    requires AllWhite(a) && AllWhite(b) && Trimmed(name) && '=' !in name && (name == [] ==> b == [])
    ensures ParseLine(a + name + b + "=" + rest) ==
            if name != [] && name[0] == '#' then Success(None)
            else if "export " <= name + b + "=" then Failure(ShellExport)
            else if name == [] then Failure(EmptyName)
            else if !ValidName(name) then Failure(InvalidName)
            else Assigned(name, rest)
  {
    var head := name + b + "=";
    assert a + name + b + "=" + rest == a + head + rest;
    assert head[0] == (if name == [] then '=' else name[0]) && head[|head| - 1] == '=';
    TrimHead(a, head, rest);
    SplitAssignment(name, b, TrimEnd(rest));
    SameWithoutEnd(rest);
    PrefixOfLonger("export ", name + b + "=", TrimEnd(rest));
  }

  /** The end of a line is trimmed, and its start as far as the first character that is not white. */
  lemma TrimHead(a: string, head: string, rest: string)
    requires AllWhite(a) && Trimmed(head) && head != []
    ensures Trim(a + head + rest) == head + TrimEnd(rest)
  {
    var kept, d := EndSplits(rest);
    Regroup(a, head, kept, d);
    TrimmedTogether(head, kept);
    TrimIs(a, head + kept, d);
  }

  lemma Regroup(a: string, b: string, c: string, d: string)
    ensures a + b + (c + d) == a + (b + c) + d
  {
  }

  lemma TrimmedTogether(head: string, kept: string)
    requires Trimmed(head) && head != [] && (kept != [] ==> !White(kept[|kept| - 1]))
    ensures Trimmed(head + kept)
  {
    assert kept == [] ==> head + kept == head;
  }

  lemma SplitAssignment(name: string, b: string, kept: string)
    requires AllWhite(b) && Trimmed(name) && '=' !in name && (name == [] ==> b == [])
    ensures var line := name + b + "=" + kept; var equals := IndexOf(line, '=');
            && equals < |line| && Trim(line[..equals]) == name && line[equals + 1..] == kept
            && line[0] == if name == [] then '=' else name[0]
  {
    var line, equals := name + b + "=" + kept, |name| + |b|;
    assert line[equals] == '=';
    forall i | 0 <= i < equals ensures line[i] != '=' {
      assert if i < |name| then line[i] == name[i] && name[i] in name else line[i] == b[i - |name|] && line[i] in b;
    }
    IndexOfIs(line, '=', equals);
    assert line[..equals] == [] + name + b && line[equals + 1..] == kept;
    TrimIs([], name, b);
  }

  lemma SameWithoutEnd(rest: string)
    ensures Trim(TrimEnd(rest)) == Trim(rest)
  {
    var kept, d := EndSplits(rest);
    var a, inner := StartSplits(kept);
    assert inner != [] ==> inner[|inner| - 1] == kept[|kept| - 1];
    TrimIs(a, inner, d);
    TrimIs(a, inner, []);
    assert a + inner + [] == kept && a + inner + d == rest;
  }

  lemma {:induction false} StartSplits(s: string) returns (a: string, kept: string)
    ensures s == a + kept && AllWhite(a) && (kept != [] ==> !White(kept[0]))
  {
    if s != [] && White(s[0]) {
      a, kept := StartSplits(s[1..]);
      a := [s[0]] + a;
    } else {
      a, kept := [], s;
    }
  }

  /** A text that ends in `=` and does not begin with a word without one will not do so when it goes on. */
  lemma PrefixOfLonger(word: string, text: string, more: string)
    requires text != [] && text[|text| - 1] == '=' && '=' !in word
    ensures StartsWith(text + more, word) <==> word <= text
  {
    if |word| >= |text| {
      assert (text + more)[|text| - 1] == '=' && word[|text| - 1] in word;
    }
  }

  lemma {:induction false} IndexOfNone(s: string, c: char)
    requires c !in s
    ensures IndexOf(s, c) == |s|
  {
    if s != [] {
      assert s[0] in s;
      IndexOfNone(s[1..], c);
    }
  }

  /** A line without an `=`: white space and comments are nothing, anything else is refused. */
  lemma OtherLineIsRead(a: string, text: string, d: string)
    requires AllWhite(a) && AllWhite(d) && Trimmed(text) && '=' !in text
    ensures ParseLine(a + text + d) ==
            if text == [] || text[0] == '#' then Success(None)
            else if "export " <= text then Failure(ShellExport)
            else Failure(NoAssignment)
  {
    TrimIs(a, text, d);
    IndexOfNone(text, '=');
  }

  /** A value that opens a quote has to close it, and a double-quoted one is unescaped. */
  lemma QuotesMustClose(raw: string)
    ensures var closed := |raw| >= 2 && raw[|raw| - 1] == raw[0];
            && (ParseValue(raw) == Failure(UnterminatedDouble) <==> raw != [] && raw[0] == '\"' && !closed)
            && (ParseValue(raw) == Failure(UnterminatedSingle) <==> raw != [] && raw[0] == '\'' && !closed)
    ensures ParseValue("\"" + raw + "\"") == Unescape(raw)
  {
    assert ("\"" + raw + "\"")[1..|raw| + 1] == raw;
    OnlyTrailingEscapes(raw);
    if |raw| >= 2 {
      OnlyTrailingEscapes(raw[1..|raw| - 1]);
    }
  }

  lemma {:induction false} OnlyTrailingEscapes(raw: string)
    ensures Unescape(raw).Failure? ==> Unescape(raw).error == TrailingEscape
  {
    if raw != [] && raw[0] != '\\' {
      OnlyTrailingEscapes(raw[1..]);
    } else if |raw| > 1 {
      OnlyTrailingEscapes(raw[2..]);
    }
  }

  /** A backslash stands for itself in front of any character that it does not escape. */
  lemma {:induction false} ForeignEscapesStay(raw: string)
    requires forall k | 0 <= k < |raw| && raw[k] == '\\' ::
               k + 1 < |raw| && raw[k + 1] !in {'\\', '\"', 'n', 'r', 't'}
    ensures Unescape(raw) == Success(raw)
  {
    if raw != [] {
      var n := if raw[0] == '\\' then 2 else 1;
      var rest := raw[n..];
      forall k | 0 <= k < |rest| && rest[k] == '\\'
        ensures k + 1 < |rest| && rest[k + 1] !in {'\\', '\"', 'n', 'r', 't'}
      {
        assert raw[k + n] == '\\';
      }
      ForeignEscapesStay(rest);
      assert raw == raw[..n] + rest;
      assert raw[..n] == if n == 2 then ['\\', raw[1]] else [raw[0]];
      assert n == 2 ==> Unescaped(raw[1]) == ['\\', raw[1]];
    }
  }

  /** Lines end with a newline, with or without a carriage return before it. */
  lemma NewlineEndsLine(line: string, more: string)
    requires '\n' !in line
    ensures Lines(line + "\r\n" + more) == [line] + Lines(more)
    ensures (line == [] || line[|line| - 1] != '\r') ==> Lines(line + "\n" + more) == [line] + Lines(more)
  {
    var crlf, lf := line + "\r\n" + more, line + "\n" + more;
    IndexOfIs(crlf, '\n', |line| + 1);
    IndexOfIs(lf, '\n', |line|);
    assert crlf[..|line| + 1] == line + ['\r'] && crlf[|line| + 2..] == more;
    assert lf[..|line|] == line && lf[|line| + 1..] == more;
  }
}
