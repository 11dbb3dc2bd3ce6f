/**
 `ConfigFileManager` of `node_utilities.py`: the local address and the primary port, written to and
 read from a two-line text file.
 */
module ConfigFiles {
  import opened Wrappers
  import opened NodeParts

  // ----- text, as Python reads it

  /** Characters that `str.strip` removes. */
  predicate IsSpace(c: char) {
    var n := c as int;
    9 <= n <= 13 || 28 <= n <= 32 || n == 0x85 || n == 0xA0 || n == 0x1680 || 0x2000 <= n <= 0x200A
    || n == 0x2028 || n == 0x2029 || n == 0x202F || n == 0x205F || n == 0x3000
  }

  function StripLeft(s: string): string {
    if s != [] && IsSpace(s[0]) then StripLeft(s[1..]) else s
  }

  function StripRight(s: string): string {
    if s != [] && IsSpace(s[|s| - 1]) then StripRight(s[..|s| - 1]) else s
  }

  function Strip(s: string): string {
    StripRight(StripLeft(s))
  }

  function RemoveBlanks(s: string): (r: string)
    ensures ' ' !in r
  {
    if s == [] then [] else (if s[0] == ' ' then [] else [s[0]]) + RemoveBlanks(s[1..])
  }

  /** Reading in text mode turns every CR LF and every lone CR into a line feed. */
  function UniversalNewlines(s: string): (r: string)
    ensures '\r' !in r
    decreases |s|
  {
    if s == [] then []
    else if s[0] != '\r' then [s[0]] + UniversalNewlines(s[1..])
    else if |s| > 1 && s[1] == '\n' then ['\n'] + UniversalNewlines(s[2..])
    else ['\n'] + UniversalNewlines(s[1..])
  }

  /** `readlines`: every line with its line feed, and what follows the last one if anything does. */
  function Lines(s: string): (r: seq<string>)
    ensures r == [] <==> s == []
  {
    LinesFrom([], s)
  }

  function LinesFrom(line: string, s: string): (r: seq<string>)
    ensures r == [] <==> line == [] && s == []
    decreases |s|
  {
    if s == [] then (if line == [] then [] else [line])
    else if s[0] == '\n' then [line + ['\n']] + LinesFrom([], s[1..])
    else LinesFrom(line + [s[0]], s[1..])
  }

  // ----- decimal numbers

  function Decimal(n: nat): (s: string)
    ensures |s| >= 1 && forall c :: c in s ==> '0' <= c <= '9'
  {
    if n < 10 then [Digit(n)] else Decimal(n / 10) + [Digit(n % 10)]
  }

  function Digit(d: nat): (c: char)
    requires d < 10
    ensures '0' <= c <= '9' && c as int - '0' as int == d
  {
    ('0' as int + d) as char
  }

  /** Digits, with single underscores allowed between them. */
  function ParseDigits(s: string): Option<nat> {
    if s == [] then None
    else
      var last, init := s[|s| - 1], s[..|s| - 1];
      if !('0' <= last <= '9') then None
      else
        var d := last as int - '0' as int;
        if init == [] then Some(d)
        else
          var rest := if init[|init| - 1] == '_' then ParseDigits(init[..|init| - 1]) else ParseDigits(init);
          match rest case None => None case Some(n) => Some(10 * n + d)
  }

  function Signed(digits: Option<nat>, negative: bool): Option<int> {
    match digits
    case None => None
    case Some(n) => var value: int := n; Some(if negative then -value else value)
  }

  /** `int(text)`, on ASCII digits. */
  function ParseInt(text: string): Option<int> {
    var s := Strip(text);
    if s == [] then None
    else if s[0] == '-' || s[0] == '+' then Signed(ParseDigits(s[1..]), s[0] == '-')
    else Signed(ParseDigits(s), false)
  }

  lemma OneMoreDigit(init: string, q: nat, d: nat)
    requires d < 10 && init != [] && init[|init| - 1] != '_' && ParseDigits(init) == Some(q)
    ensures ParseDigits(init + [Digit(d)]) == Some(10 * q + d)
  {
    var s := init + [Digit(d)];
    assert s[|s| - 1] == Digit(d) && s[..|s| - 1] == init;
  }

  lemma OneDigit(c: char)
    requires '0' <= c <= '9'
    ensures ParseDigits([c]) == Some(c as int - '0' as int)
  {
    assert [c][..0] == [];
  }

  lemma SplitDecimal(n: nat) returns (q: nat, d: nat)
    requires n >= 10
    ensures q < n && d < 10 && 10 * q + d == n
    ensures Decimal(n) == Decimal(q) + [Digit(d)]
  {
    q, d := n / 10, n % 10;
  }

  lemma {:induction false} DecimalParses(n: nat)
    ensures ParseDigits(Decimal(n)) == Some(n)
    decreases n
  {
    if n < 10 {
      OneDigit(Digit(n));
    } else {
      var q, d := SplitDecimal(n);
      var init := Decimal(q);
      assert init[|init| - 1] in init;
      DecimalParses(q);
      OneMoreDigit(init, q, d);
    }
  }

  // ----- writing and reading

  /** What `write_config` puts into the file; a negative port is written with its sign. */
  function ConfigText(ip: string, port: int): string {
    ip + ['\n'] + Printed(port)
  }

  function ReadIp(line: string): string {
    Strip(RemoveBlanks(line))
  }

  /** The address and the port read from a file with this text; none where reading raises. */
  function ReadText(text: string): ConfigRead {
    var lines := Lines(UniversalNewlines(text));
    ConfigRead(if |lines| >= 1 then Some(ReadIp(lines[0])) else None,
               if |lines| >= 2 then ParseInt(lines[1]) else None)
  }

  datatype ConfigRead = ConfigRead(ip: Option<string>, port: Option<int>)

  /** An address that survives: no blank, no line break, no other white space at its ends. */
  predicate PlainAddress(ip: string) {
    && ' ' !in ip && '\n' !in ip && '\r' !in ip
    && (ip != [] ==> !IsSpace(ip[0]) && !IsSpace(ip[|ip| - 1]))
  }

  class ConfigFileManager {
    const config: NodeConfig
    var text: Option<string>     // the content of the file, if it exists

    constructor (config: NodeConfig, text: Option<string>)
      ensures this.config == config && this.text == text
    {
      this.config, this.text := config, text;
    }

    /** `read_config`.  The address is assigned before the port is read, so it stays if that raises. */
    method ReadConfig() returns (raised: bool)
      modifies config`localIp, config`primaryPort
      ensures raised <==> text.None? || Parsed().ip.None? || Parsed().port.None?
      ensures config.localIp == if text.Some? && Parsed().ip.Some? then Parsed().ip.value else old(config.localIp)
      ensures config.primaryPort == if raised then old(config.primaryPort) else Parsed().port.value
    {
      if text.None? {
        return true;
      }
      var read := ReadText(text.value);
      if read.ip.None? {
        return true;
      }
      config.localIp := read.ip.value;
      if read.port.None? {
        return true;
      }
      config.primaryPort := read.port.value;
      return false;
    }

    function Parsed(): ConfigRead
      requires text.Some?
      reads this`text
    {
      ReadText(text.value)
    }

    method WriteConfig()
      modifies this`text
      ensures text == Some(ConfigText(config.localIp, config.primaryPort))
    {
      var number := if config.primaryPort >= 0 then Decimal(config.primaryPort) else "-" + Decimal(-config.primaryPort);
      text := Some(config.localIp + ['\n'] + number);
    }
  }

  // ----- the round trip

  lemma {:induction false} NoNewlinesNoChange(s: string)
    requires '\r' !in s
    ensures UniversalNewlines(s) == s
  {
    if s != [] {
      assert s[0] in s && '\r' !in s[1..];
      NoNewlinesNoChange(s[1..]);
    }
  }

  lemma {:induction false} LinesOfTwo(line: string, a: string, b: string)
    requires '\n' !in a && '\n' !in b && b != []
    ensures LinesFrom(line, a + ['\n'] + b) == [line + a + ['\n'], b]
    decreases |a|
  {
    var s := a + ['\n'] + b;
    if a == [] {
      assert s[0] == '\n' && s[1..] == b && line + a == line;
      OneLine([], b);
      assert [] + b == b;
    } else {
      assert a[0] in a && '\n' !in a[1..];
      assert s[0] == a[0] && s[1..] == a[1..] + ['\n'] + b;
      LinesOfTwo(line + [a[0]], a[1..], b);
      assert line + [a[0]] + a[1..] == line + a;
    }
  }

  lemma {:induction false} OneLine(line: string, b: string)
    requires '\n' !in b && line + b != []
    ensures LinesFrom(line, b) == [line + b]
    decreases |b|
  {
    if b == [] {
      assert line + b == line;
    } else {
      assert b[0] in b && '\n' !in b[1..];
      OneLine(line + [b[0]], b[1..]);
      assert line + [b[0]] + b[1..] == line + b;
    }
  }

  lemma {:induction false} NoBlanksNoChange(s: string)
    requires ' ' !in s
    ensures RemoveBlanks(s) == s
  {
    if s != [] {
      assert s[0] in s && ' ' !in s[1..];
      NoBlanksNoChange(s[1..]);
    }
  }

  lemma StripPlain(s: string)
    requires s != [] ==> !IsSpace(s[0]) && !IsSpace(s[|s| - 1])
    ensures Strip(s) == s
  {
    assert StripLeft(s) == s;
  }

  lemma StripLineFeed(s: string)
    requires s != [] ==> !IsSpace(s[0])
    ensures Strip(s + ['\n']) == StripRight(s)
  {
    var line := s + ['\n'];
    assert line[..|line| - 1] == s && IsSpace('\n');
    if s == [] {
      assert line[1..] == [] && StripLeft(line) == StripLeft(line[1..]);
    } else {
      assert StripLeft(line) == line;
    }
  }

  lemma PlainAddressSurvives(ip: string)
    requires PlainAddress(ip)
    ensures ReadIp(ip + ['\n']) == ip
  {
    NoBlanksNoChange(ip + ['\n']);
    StripLineFeed(ip);
  }

  lemma DigitsAreNotSpace(c: char)
    requires '0' <= c <= '9'
    ensures !IsSpace(c)
  {
  }

  /** A port as `str` prints it; `write_config` does not care whether it is a sensible one. */
  function Printed(port: int): (s: string)
    ensures |s| >= 1 && forall c :: c in s ==> '0' <= c <= '9' || c == '-'
  {
    if port >= 0 then Decimal(port) else "-" + Decimal(-port)
  }

  lemma PrintedPortParses(port: int)
    ensures ParseInt(Printed(port)) == Some(port)
    ensures !IsSpace(Printed(port)[0]) && !IsSpace(Printed(port)[|Printed(port)| - 1])
  {
    var n: nat := if port >= 0 then port else -port;
    var s, digits := Printed(port), Decimal(n);
    assert digits[0] in digits && digits[|digits| - 1] in digits;
    DigitsAreNotSpace(digits[0]);
    DigitsAreNotSpace(digits[|digits| - 1]);
    assert s[|s| - 1] == digits[|digits| - 1];
    StripPlain(s);
    DecimalParses(n);
    assert port < 0 ==> s[1..] == digits;
  }

  lemma {:induction false} StripLeftStarts(s: string)
    ensures StripLeft(s) == [] || !IsSpace(StripLeft(s)[0])
    ensures forall c :: c !in s ==> c !in StripLeft(s)
  {
    if s != [] && IsSpace(s[0]) {
      StripLeftStarts(s[1..]);
    }
  }

  lemma {:induction false} StripRightEnds(s: string)
    ensures StripRight(s) <= s && (StripRight(s) == [] || !IsSpace(StripRight(s)[|StripRight(s)| - 1]))
  {
    if s != [] && IsSpace(s[|s| - 1]) {
      StripRightEnds(s[..|s| - 1]);
    }
  }

  /** Whatever the line, an address that was read is plain. */
  lemma ReadAddressIsPlain(line: string)
    requires '\r' !in line
    ensures PlainAddress(ReadIp(line)) || '\n' in ReadIp(line)
  {
    var s := RemoveBlanks(line);
    RemoveBlanksOnlyRemoves(line, '\r');
    StripLeftStarts(s);
    StripRightEnds(StripLeft(s));
  }

  lemma {:induction false} RemoveBlanksOnlyRemoves(s: string, c: char)
    requires c !in s
    ensures c !in RemoveBlanks(s)
  {
    if s != [] {
      RemoveBlanksOnlyRemoves(s[1..], c);
    }
  }

  /** Line feeds stand only at the ends of lines. */
  lemma {:induction false} FirstLine(line: string, s: string)
    requires '\n' !in line && line + s != []
    ensures var l := LinesFrom(line, s)[0];
            l != [] && '\n' !in l[..|l| - 1] && forall c :: c !in line + s ==> c !in l
    decreases |s|
  {
    if s != [] && s[0] != '\n' {
      assert line + s == (line + [s[0]]) + s[1..];
      FirstLine(line + [s[0]], s[1..]);
    }
  }

  /** So no address with a line feed is ever read. */
  lemma ReadAddressHasNoLineFeed(line: string)
    requires line != [] && '\n' !in line[..|line| - 1]
    ensures '\n' !in ReadIp(line)
  {
    var init, last := line[..|line| - 1], line[|line| - 1];
    assert line == init + [last];
    if last == '\n' {
      RemoveBlanksSnoc(init, last);
      RemoveBlanksOnlyRemoves(init, '\n');
      StripAllButLineFeed(RemoveBlanks(init));
    } else {
      RemoveBlanksOnlyRemoves(line, '\n');
      StripLeftStarts(RemoveBlanks(line));
      StripRightEnds(StripLeft(RemoveBlanks(line)));
    }
  }

  lemma {:induction false} RemoveBlanksSnoc(s: string, c: char)
    requires c != ' '
    ensures RemoveBlanks(s + [c]) == RemoveBlanks(s) + [c]
  {
    if s != [] {
      assert (s + [c])[1..] == s[1..] + [c];
      RemoveBlanksSnoc(s[1..], c);
    }
  }

  lemma {:induction false} StripAllButLineFeed(s: string)
    requires '\n' !in s
    ensures '\n' !in Strip(s + ['\n'])
    decreases |s|
  {
    var line := s + ['\n'];
    if s == [] {
      assert line[1..] == [] && StripLeft(line) == StripLeft(line[1..]);
    } else if IsSpace(s[0]) {
      assert line[1..] == s[1..] + ['\n'];
      StripAllButLineFeed(s[1..]);
    } else {
      assert line[..|line| - 1] == s;
      StripRightEnds(s);
    }
  }

  lemma PlainAddressComesBack(ip: string, port: int)
    requires PlainAddress(ip)
    ensures ReadText(ConfigText(ip, port)) == ConfigRead(Some(ip), Some(port))
  {
    var digits := Printed(port);
    assert '\r' !in digits && '\n' !in digits;
    NoNewlinesNoChange(ip + ['\n'] + digits);
    LinesOfTwo([], ip, digits);
    assert [] + ip + ['\n'] == ip + ['\n'];
    PlainAddressSurvives(ip);
    PrintedPortParses(port);
  }

  /** Whatever the file contains, only a plain address is ever read from it. */
  lemma OnlyPlainAddressesAreRead(text: string)
    ensures ReadText(text).ip.Some? ==> PlainAddress(ReadText(text).ip.value)
  {
    var universal := UniversalNewlines(text);
    if universal != [] {
      assert [] + universal == universal;
      FirstLine([], universal);
      ReadAddressIsPlain(Lines(universal)[0]);
      ReadAddressHasNoLineFeed(Lines(universal)[0]);
    }
  }

  /**
   Reading back what was written restores address and port if and only if the address is plain:
   in particular for every address without white space, and for every port.
   */
  lemma ConfigRoundTrip(ip: string, port: int)
    ensures ReadText(ConfigText(ip, port)) == ConfigRead(Some(ip), Some(port)) <==> PlainAddress(ip)
  {
    if PlainAddress(ip) {
      PlainAddressComesBack(ip, port);
    } else {
      OnlyPlainAddressesAreRead(ConfigText(ip, port));
    }
  }
}
