/** Lines of a configuration file: quoting, comments, lists and resolver lists
    (`render.go`, `loader.go`, `resolver.go`), and that what is printed is read back. */
module ConfigText {
  import opened Text

  // ---- Quoting ----

  /** `%q`: `isPrint` is `strconv.IsPrint`, `escape` the escape sequence of any other character. */
  datatype Printer = Printer(isPrint: char -> bool, escape: char -> string)

  ghost predicate ValidPrinter(printer: Printer) {
    forall c :: (printer.isPrint(c) ==> !IsControl(c))
                && |printer.escape(c)| >= 2 && printer.escape(c)[0] == '\\' && '\n' !in printer.escape(c)
                   && '#' !in printer.escape(c)
  }

  predicate PlainChar(printer: Printer, c: char) {
    printer.isPrint(c) && c != '"' && c != '\\'
  }

  /** Printable text without double quotes and backslashes. */
  predicate PlainText(printer: Printer, s: string) {
    forall i :: 0 <= i < |s| ==> PlainChar(printer, s[i])
  }

  function Escaped(printer: Printer, s: string): string {
    if s == "" then "" else (if PlainChar(printer, s[0]) then [s[0]]
                             else printer.escape(s[0])) + Escaped(printer, s[1..])
  }

  function Quote(printer: Printer, s: string): string {
    "\"" + Escaped(printer, s) + "\""
  }

  function Unquote(value: string): string {
    if |value| < 2 then value
    else
      var first, last := value[0], value[|value| - 1];
      if (first == '"' && last == '"') || (first == '\'' && last == '\'') then value[1..|value| - 1] else value
  }

  lemma {:induction false} PlainIsNotEscaped(printer: Printer, s: string)
    requires PlainText(printer, s)
    ensures Escaped(printer, s) == s
  {
    if s != "" {
      PlainIsNotEscaped(printer, s[1..]);
    }
  }

  lemma {:induction false} EscapingLengthens(printer: Printer, s: string)
    requires ValidPrinter(printer)
    ensures |Escaped(printer, s)| >= |s|
    ensures !PlainText(printer, s) ==> |Escaped(printer, s)| > |s|
  {
    if s != "" {
      EscapingLengthens(printer, s[1..]);
      if PlainChar(printer, s[0]) && PlainText(printer, s[1..]) {
        assert s == [s[0]] + s[1..];
        assert PlainText(printer, s);
      }
    }
  }

  /** `unquote` undoes `%q` exactly on printable text without double quotes and backslashes. */
  lemma UnquoteUndoesQuote(printer: Printer, s: string)
    requires ValidPrinter(printer)
    ensures Unquote(Quote(printer, s)) == s <==> PlainText(printer, s)
  {
    var quoted := Quote(printer, s);
    assert quoted[1..|quoted| - 1] == Escaped(printer, s);
    if PlainText(printer, s) {
      PlainIsNotEscaped(printer, s);
    } else {
      EscapingLengthens(printer, s);
    }
  }

  // ---- Comments ----

  /** The line up to a `#` outside quotes. */
  function Uncommented(line: string, inSingle: bool, inDouble: bool): string {
    if line == "" then ""
    else
      var c := line[0];
      if c == '#' && !inSingle && !inDouble then ""
      else
        [c] + Uncommented(line[1..],
                          if c == '\'' && !inDouble then !inSingle else inSingle,
                          if c == '"' && !inSingle then !inDouble else inDouble)
  }

  method StripComment(line: string) returns (out: string)
    ensures out == Uncommented(line, false, false)
  {
    hide Uncommented;
    var inSingle, inDouble := false, false;
    assert line[..0] == "" && line[0..] == line;
    for i := 0 to |line|
      invariant Uncommented(line, false, false) == line[..i] + Uncommented(line[i..], inSingle, inDouble)
    {
      UncommentedStep(line, i, inSingle, inDouble);
      if line[i] == '\'' {
        if !inDouble { inSingle := !inSingle; }
      } else if line[i] == '"' {
        if !inSingle { inDouble := !inDouble; }
      } else if line[i] == '#' {
        if !inSingle && !inDouble {
          return line[..i];
        }
      }
    }
    assert line[..|line|] == line && line[|line|..] == "";
    UncommentedEnd(inSingle, inDouble);
    return line;
  }

  lemma UncommentedStep(line: string, i: nat, inSingle: bool, inDouble: bool)
    requires i < |line|
    ensures var c := line[i];
            line[..i] + Uncommented(line[i..], inSingle, inDouble) ==
            if c == '#' && !inSingle && !inDouble then line[..i]
            else line[..i + 1] + Uncommented(line[i + 1..], if c == '\''
                                             && !inDouble then !inSingle else inSingle, if c == '"'
                                                && !inSingle then !inDouble else inDouble)
  {
    assert line[i..][1..] == line[i + 1..] && line[..i + 1] == line[..i] + [line[i]];
  }

  lemma UncommentedEnd(inSingle: bool, inDouble: bool)
    ensures Uncommented("", inSingle, inDouble) == ""
  {
  }

  lemma {:induction false} NothingToStrip(left: string, right: string)
    requires Excludes(left, {'#', '"', '\''})
    ensures Uncommented(left + right, false, false) == left + Uncommented(right, false, false)
  {
    if left == "" {
      assert left + right == right;
    } else {
      assert (left + right)[1..] == left[1..] + right;
      NothingToStrip(left[1..], right);
    }
  }

  lemma {:induction false} InsideQuotes(s: string)
    requires Excludes(s, {'"'})
    ensures Uncommented(s + "\"", false, true) == s + "\""
  {
    if s != "" {
      assert (s + "\"")[1..] == s[1..] + "\"";
      InsideQuotes(s[1..]);
    }
  }

  // ---- Lines ----

  datatype Parsed = Blank | Heading(section: string) | Setting(key: string, value: string) | Malformed

  function ParseLine(line: string): Parsed {
    var raw := Trim(Uncommented(line, false, false));
    var colon := IndexOf(raw, ':');
    if raw == "" then Blank
    else if HasSuffix(raw, ":") then Heading(raw[..|raw| - 1])
    else if colon == |raw| then Malformed
    else Setting(Trim(raw[..colon]), Unquote(Trim(raw[colon + 1..])))
  }

  function SettingLine(key: string, literal: string): string {
    "  " + key + ": " + literal
  }

  /** Lower-case words joined by underscores, perhaps with digits. */
  predicate Name(s: string) {
    s != "" && forall i :: 0 <= i < |s| ==> 'a' <= s[i] <= 'z' || '0' <= s[i] <= '9' || s[i] == '_'
  }

  type Key = s: string | Name(s) witness "a"

  /** Survives as the value of a line. */
  predicate Literal(s: string) {
    && s != "" && !IsSpace(s[0]) && !IsSpace(s[|s| - 1]) && s[|s| - 1] != ':'
    && Uncommented(s, false, false) == s
  }

  lemma TrimPadding(s: string)
    requires s != "" && IsTrimmed(s)
    ensures Trim("  " + s) == s && Trim(" " + s) == s && Trim(s) == s
  {
    TrimmedIsFixed(s);
    assert (" " + s)[1..] == s;
    assert TrimLeft(" " + s) == TrimLeft(s);
    assert ("  " + s)[1..] == " " + s;
    assert TrimLeft("  " + s) == TrimLeft(" " + s);
  }

  lemma SettingIsRead(key: string, literal: string)
    requires Name(key) && Literal(literal)
    ensures ParseLine(SettingLine(key, literal)) == Setting(key, Unquote(literal))
  {
    hide Unquote, Uncommented, IndexOf, Trim;
    var rest := key + ": " + literal;
    assert SettingLine(key, literal) == ("  " + key + ": ") + literal;
    NothingToStrip("  " + key + ": ", literal);
    assert SettingLine(key, literal) == "  " + rest;
    TrimPadding(rest);
    TrimPadding(literal);
    TrimPadding(key);
    assert rest[|rest| - 1] == literal[|literal| - 1];
    assert !HasSuffix(rest, ":") by {
      assert rest[|rest| - 1..] == [literal[|literal| - 1]];
    }
    assert rest == key + [':'] + (" " + literal);
    IndexOfFirst(key, " " + literal, ':');
    assert rest[..|key|] == key && rest[|key| + 1..] == " " + literal;
  }

  lemma HeadingIsRead(section: string)
    requires Name(section)
    ensures ParseLine(section + ":") == Heading(section)
  {
    hide Trim, IndexOf;
    var line := section + ":";
    NothingToStrip(line, "");
    assert line + "" == line;
    TrimPadding(line);
    assert line[|line| - 1..] == ":" && line[..|line| - 1] == section;
  }

  lemma BlankIsRead()
    ensures ParseLine("") == Blank
  {
  }

  lemma QuotedIsLiteral(printer: Printer, s: string)
    requires ValidPrinter(printer) && PlainText(printer, s)
    ensures Literal(Quote(printer, s)) && Unquote(Quote(printer, s)) == s
  {
    PlainIsNotEscaped(printer, s);
    InsideQuotes(s);
    var quoted := Quote(printer, s);
    assert quoted == "\"" + (s + "\"") && quoted[1..] == s + "\"";
    UnquoteUndoesQuote(printer, s);
  }

  /** Words of letters, digits and a sign need no quotes. */
  predicate Bare(s: string) {
    s != "" && forall i :: 0 <= i < |s| ==> 'a' <= s[i] <= 'z' || '0' <= s[i] <= '9' || s[i] == '-'
  }

  lemma BareIsLiteral(s: string)
    requires Bare(s)
    ensures Literal(s) && Unquote(s) == s
  {
    NothingToStrip(s, "");
    assert s + "" == s;
  }

  // ---- Numbers and booleans ----

  function DecimalDigits(n: nat): (s: string)
    ensures s != "" && AllDigits(s)
  {
    if n < 10 then [(n + '0' as int) as char] else DecimalDigits(n / 10) + [(n % 10 + '0' as int) as char]
  }

  /** `%d`. */
  function Decimal(n: int): string {
    if n < 0 then "-" + DecimalDigits(-n) else DecimalDigits(n)
  }

  lemma {:induction false} DigitsReadBack(n: nat)
    ensures DigitsValue(DecimalDigits(n)) == n
  {
    var s := DecimalDigits(n);
    if n >= 10 {
      DigitsReadBack(n / 10);
      assert s[..|s| - 1] == DecimalDigits(n / 10);
    } else {
      assert s[..0] == "";
    }
  }

  lemma DecimalReadsBack(n: int)
    ensures Atoi(Decimal(n)) == Some(n) && Bare(Decimal(n))
  {
    DigitsReadBack(if n < 0 then -n else n);
    if n < 0 {
      assert Decimal(n)[1..] == DecimalDigits(-n);
    }
  }

  lemma {:induction false} NoLeadingZero(n: nat)
    ensures n > 0 ==> DecimalDigits(n)[0] != '0'
    ensures n == 0 ==> DecimalDigits(n) == "0"
  {
    if n >= 10 {
      NoLeadingZero(n / 10);
    }
  }

  /** `strconv.ParseUint(text, 0, 32)`; `otherBase` reads what starts with a zero or holds underscores. */
  function ParseUnsigned(text: string, otherBase: string -> Option<nat>): Option<int> {
    if text == "" then None
    else if text == "0" then Some(0)
    else if text[0] != '0' && AllDigits(text) then
      if DigitsValue(text) < 0x1_0000_0000 then Some(DigitsValue(text)) else None
    else
      var other := otherBase(text);
      if other.Some? && other.value < 0x1_0000_0000 then Some(other.value) else None
  }

  /** `strconv.ParseBool`. */
  function ParseFlag(text: string): Option<bool> {
    if text in {"1", "t", "T", "TRUE", "true", "True"} then Some(true)
    else if text in {"0", "f", "F", "FALSE", "false", "False"} then Some(false)
    else None
  }

  // ---- Lists ----

  function NonBlank(parts: seq<string>): seq<string> {
    if parts == [] then []
    else
      var before := NonBlank(parts[..|parts| - 1]);
      var last := Trim(parts[|parts| - 1]);
      if last == "" then before else before + [last]
  }

  function CommaSeparated(text: string): seq<string> {
    if Trim(text) == "" then [] else NonBlank(Split(text, ','))
  }

  method SplitCommaSeparated(text: string) returns (items: seq<string>)
    ensures items == CommaSeparated(text)
  {
    items := [];
    if Trim(text) == "" {
      return;
    }
    var parts := Split(text, ',');
    for i := 0 to |parts|
      invariant items == NonBlank(parts[..i])
    {
      assert parts[..i + 1][..i] == parts[..i];
      var trimmed := Trim(parts[i]);
      if trimmed != "" {
        items := items + [trimmed];
      }
    }
    assert parts[..|parts|] == parts;
  }

  /** Survives in a list. */
  predicate Item(s: string) {
    s != "" && Trim(s) == s && ',' !in s
  }

  predicate Items(items: seq<string>) {
    forall i :: 0 <= i < |items| ==> Item(items[i])
  }

  lemma {:induction false} SplitUndoesJoin(items: seq<string>, sep: char)
    requires items != [] && forall i :: 0 <= i < |items| ==> sep !in items[i]
    ensures Split(Join(items, sep), sep) == items
  {
    hide IndexOf;
    if |items| == 1 {
      SplitWithout(items[0], sep);
    } else {
      SplitUndoesJoin(items[1..], sep);
      SplitAtSeparator(items[0], Join(items[1..], sep), sep);
    }
  }

  lemma {:induction false} ItemsAreKept(items: seq<string>)
    requires Items(items)
    ensures NonBlank(items) == items
  {
    hide Trim;
    if items != [] {
      ItemsAreKept(items[..|items| - 1]);
    }
  }

  lemma {:induction false} NonBlankAreItems(parts: seq<string>)
    requires forall i :: 0 <= i < |parts| ==> ',' !in parts[i]
    ensures Items(NonBlank(parts))
  {
    hide Trim;
    if parts != [] {
      NonBlankAreItems(parts[..|parts| - 1]);
      var last := parts[|parts| - 1];
      TrimIsTrimmed(last);
      TrimIsPart(last);
    }
  }

  lemma TrimIsPart(s: string)
    ensures forall c :: c in Trim(s) ==> c in s
  {
    TrimLeftIsPart(s);
    TrimRightShortens(TrimLeft(s));
  }

  lemma {:induction false} TrimLeftIsPart(s: string)
    ensures forall c :: c in TrimLeft(s) ==> c in s
  {
    if s != [] && IsSpace(s[0]) {
      TrimLeftIsPart(s[1..]);
    }
  }

  lemma {:induction false} SplitPartsExclude(s: string, sep: char)
    ensures forall i :: 0 <= i < |Split(s, sep)| ==> sep !in Split(s, sep)[i]
    decreases |s|
  {
    var i := IndexOf(s, sep);
    if i < |s| {
      SplitPartsExclude(s[i + 1..], sep);
    } else {
      assert s[..i] == s;
    }
  }

  /** A list survives being joined and split exactly when its items are trimmed, not empty and free of commas. */
  lemma ListReadsBack(items: seq<string>)
    ensures CommaSeparated(Join(items, ',')) == items <==> Items(items)
  {
    hide Trim, Split, Join;
    if Items(items) {
      if items != [] {
        SplitUndoesJoin(items, ',');
        ItemsAreKept(items);
        JoinIsNotBlank(items);
      } else {
        EmptyJoin();
      }
    } else {
      SplitPartsExclude(Join(items, ','), ',');
      NonBlankAreItems(Split(Join(items, ','), ','));
    }
  }

  lemma EmptyJoin()
    ensures Join([], ',') == "" && Trim("") == ""
  {
  }

  lemma JoinIsNotBlank(items: seq<string>)
    requires items != [] && Items(items)
    ensures Trim(Join(items, ',')) != ""
  {
    var first := items[0];
    assert Item(first);
    TrimmedIsFixed(first);
    var joined := Join(items, ',');
    assert joined[0] == first[0];
    if Trim(joined) == "" {
      TrimBlank(joined, 0);
    }
  }

  lemma {:induction false} TrimBlank(s: string, i: nat)
    requires i < |s| && Trim(s) == ""
    ensures IsSpace(s[i])
  {
    if s != [] && !IsSpace(s[0]) {
      TrimRightEmpty(s, 0);
    } else if i > 0 {
      TrimBlank(s[1..], i - 1);
    }
  }

  lemma {:induction false} TrimRightEmpty(s: string, i: nat)
    requires i < |s| && TrimRight(s) == ""
    ensures IsSpace(s[i])
  {
    if i < |s| - 1 {
      TrimRightEmpty(s[..|s| - 1], i);
    }
  }

  // ---- Resolver lists ----

  datatype Upstream = Upstream(address: string, bootstrap: string)

  function EncodeUpstream(u: Upstream): string {
    if u.bootstrap != "" then u.address + "|" + u.bootstrap else u.address
  }

  function DecodeUpstream(text: string): Upstream {
    var bar := IndexOf(text, '|');
    if bar == |text| then Upstream(text, "") else Upstream(text[..bar], text[bar + 1..])
  }

  function EncodeUpstreams(upstreams: seq<Upstream>): (r: seq<string>)
    ensures |r| == |upstreams|
    ensures forall i :: 0 <= i < |upstreams| ==> r[i] == EncodeUpstream(upstreams[i])
  {
    seq(|upstreams|, i requires 0 <= i < |upstreams| => EncodeUpstream(upstreams[i]))
  }

  function DecodeUpstreams(texts: seq<string>): (r: seq<Upstream>)
    ensures |r| == |texts|
    ensures forall i :: 0 <= i < |texts| ==> r[i] == DecodeUpstream(texts[i])
  {
    seq(|texts|, i requires 0 <= i < |texts| => DecodeUpstream(texts[i]))
  }

  method RenderResolverUpstreams(upstreams: seq<Upstream>) returns (text: string)
    ensures text == Join(EncodeUpstreams(upstreams), ',')
  {
    var values: seq<string> := [];
    for i := 0 to |upstreams|
      invariant values == EncodeUpstreams(upstreams)[..i]
    {
      var value := upstreams[i].address;
      if upstreams[i].bootstrap != "" {
        value := value + "|" + upstreams[i].bootstrap;
      }
      values := values + [value];
    }
    assert values == EncodeUpstreams(upstreams);
    return Join(values, ',');
  }

  /** The entry's address, and after its first bar, if it has one, the bootstrap address. */
  predicate CutAtBar(entry: string, u: Upstream) {
    '|' !in u.address && ((entry == u.address && u.bootstrap == "") || entry == u.address + ['|'] + u.bootstrap)
  }

  method ReadUpstreams(text: string) returns (upstreams: seq<Upstream>)
    ensures upstreams == DecodeUpstreams(CommaSeparated(text)) && |upstreams| == |CommaSeparated(text)|
    ensures forall i :: 0 <= i < |upstreams| ==> CutAtBar(CommaSeparated(text)[i], upstreams[i])
  {
    var entries := SplitCommaSeparated(text);
    upstreams := [];
    for i := 0 to |entries|
      invariant upstreams == DecodeUpstreams(entries)[..i]
    {
      upstreams := upstreams + [DecodeUpstream(entries[i])];
    }
  }

  /** Survives in a resolver list. */
  predicate Encodable(u: Upstream) {
    '|' !in u.address && Item(EncodeUpstream(u))
  }

  lemma EncodableReadsBack(u: Upstream)
    requires Encodable(u)
    ensures DecodeUpstream(EncodeUpstream(u)) == u
  {
    if u.bootstrap != "" {
      IndexOfFirst(u.address, u.bootstrap, '|');
      assert u.address + "|" + u.bootstrap == u.address + ['|'] + u.bootstrap;
      var text := EncodeUpstream(u);
      assert text[..|u.address|] == u.address && text[|u.address| + 1..] == u.bootstrap;
    } else {
      SplitWithout(u.address, '|');
    }
  }

  /** Every list of encodable resolvers survives printing and loading. */
  lemma ResolversReadBack(upstreams: seq<Upstream>)
    requires forall i :: 0 <= i < |upstreams| ==> Encodable(upstreams[i])
    ensures DecodeUpstreams(CommaSeparated(Join(EncodeUpstreams(upstreams), ','))) == upstreams
  {
    hide CommaSeparated, Join, Item;
    ListReadsBack(EncodeUpstreams(upstreams));
    forall i | 0 <= i < |upstreams| ensures DecodeUpstream(EncodeUpstream(upstreams[i])) == upstreams[i] {
      EncodableReadsBack(upstreams[i]);
    }
  }

  /** The character checks of `ParseResolverUpstream` on a trimmed address; the fixed IPv4 of a
      valid bootstrap has neither white space nor commas. */
  predicate ValidatedCharacters(u: Upstream) {
    && u.address != "" && |u.address| <= 2048
    && Excludes(u.address, {'"', '\'', '#', ',', '|', '\\'}) && Excludes(u.bootstrap, {','})
    && (forall i :: 0 <= i < |u.address| ==> !IsSpace(u.address[i]))
    && (forall i :: 0 <= i < |u.bootstrap| ==> !IsSpace(u.bootstrap[i]))
  }

  /** Validation makes a normalized resolver encodable. */
  lemma ValidatedIsEncodable(u: Upstream)
    requires ValidatedCharacters(u)
    ensures Encodable(u)
  {
    TrimmedIsFixed(EncodeUpstream(u));
  }
}
