/**
 What `read_config` makes of files it did not write itself: blanks and other white space, CR LF line
 ends, text behind the second line, and ports that are no numbers.
 */
module ConfigReading {
  import opened Wrappers
  import opened ConfigFiles

  predicate AllSpace(s: string) {
    forall c :: c in s ==> IsSpace(c)
  }

  /** Nothing to strip. */
  predicate Bare(s: string) {
    s != [] ==> !IsSpace(s[0]) && !IsSpace(s[|s| - 1])
  }

  // ----- the string operations, by what they do

  /** Removing blanks works character by character. */
  lemma {:induction false} BlanksAreRemoved(a: string, b: string)
    ensures RemoveBlanks(a + b) == RemoveBlanks(a) + RemoveBlanks(b)
    ensures |a| == 1 ==> RemoveBlanks(a) == if a[0] == ' ' then [] else a
  {
    if a == [] {
      assert a + b == b;
    } else {
      assert (a + b)[1..] == a[1..] + b;
      BlanksAreRemoved(a[1..], b);
    }
  }

  lemma {:induction false} StripLeftDrops(l: string, s: string)
    requires AllSpace(l)
    ensures StripLeft(l + s) == StripLeft(s)
  {
    if l == [] {
      assert l + s == s;
    } else {
      assert l[0] in l && (l + s)[1..] == l[1..] + s;
      StripLeftDrops(l[1..], s);
    }
  }

  lemma {:induction false} StripRightDrops(s: string, r: string)
    requires AllSpace(r)
    ensures StripRight(s + r) == StripRight(s)
    decreases |r|
  {
    if r == [] {
      assert s + r == s;
    } else {
      var init, last := r[..|r| - 1], r[|r| - 1];
      assert last in r && (s + r)[..|s + r| - 1] == s + init && (s + r)[|s + r| - 1] == last;
      StripRightDrops(s, init);
    }
  }

  /** Stripping takes white space off both ends, and nothing else. */
  lemma StripIs(l: string, core: string, r: string)
    requires AllSpace(l) && Bare(core) && AllSpace(r)
    ensures Strip(l + core + r) == core
  {
    assert l + core + r == l + (core + r);
    StripLeftDrops(l, core + r);
    if core == [] {
      assert core + r == r && r + [] == r;
      StripLeftDrops(r, []);
    } else {
      assert (core + r)[0] == core[0];
      StripRightDrops(core, r);
    }
  }

  /** A CR LF reads as a line feed. */
  lemma {:induction false} CrLfReadsAsLineFeed(a: string, b: string)
    requires '\r' !in a
    ensures UniversalNewlines(a + ['\r', '\n'] + b) == a + ['\n'] + UniversalNewlines(b)
  {
    var s := a + ['\r', '\n'] + b;
    if a == [] {
      assert s[2..] == b;
    } else {
      assert a[0] in a && s[0] == a[0] && s[1..] == a[1..] + ['\r', '\n'] + b;
      CrLfReadsAsLineFeed(a[1..], b);
    }
  }

  /** The first line of a text, with its line feed. */
  lemma {:induction false} LineOff(line: string, a: string, b: string)
    requires '\n' !in a
    ensures LinesFrom(line, a + ['\n'] + b) == [line + a + ['\n']] + LinesFrom([], b)
    decreases |a|
  {
    var s := a + ['\n'] + b;
    if a == [] {
      assert s[0] == '\n' && s[1..] == b && line + a == line;
    } else {
      assert a[0] in a && '\n' !in a[1..] && s[0] == a[0] && s[1..] == a[1..] + ['\n'] + b;
      LineOff(line + [a[0]], a[1..], b);
      assert line + [a[0]] + a[1..] == line + a;
    }
  }

  // ----- numbers

  /** Decimal notation is positional: the last digit, and in front of it the rest. */
  lemma DecimalIsPositional(q: nat, d: nat)
    requires d < 10
    ensures Decimal(d) == [('0' as int + d) as char]
    ensures q > 0 ==> Decimal(10 * q + d) == Decimal(q) + [('0' as int + d) as char]
  {
    assert (10 * q + d) / 10 == q && (10 * q + d) % 10 == d;
  }

  lemma {:induction false} OnlyDigitsParse(s: string, c: char)
    requires c in s && c != '_' && !('0' <= c <= '9')
    ensures ParseDigits(s) == None
    decreases |s|
  {
    var last, init := s[|s| - 1], s[..|s| - 1];
    assert s == init + [last];
    if c != last && init != [] {
      if init[|init| - 1] == '_' {
        var shorter := init[..|init| - 1];
        assert init == shorter + ['_'];
        OnlyDigitsParse(shorter, c);
      } else {
        OnlyDigitsParse(init, c);
      }
    }
  }

  /** Any port is read, with a sign or without and with white space around it. */
  lemma PaddedPort(l: string, port: int, r: string)
    requires AllSpace(l) && AllSpace(r)
    ensures ParseInt(l + Printed(port) + r) == Some(port)
    ensures port >= 0 ==> ParseInt(l + (['+'] + Printed(port)) + r) == Some(port)
  {
    var s := Printed(port);
    PrintedPortParses(port);
    StripIs(l, s, r);
    StripPlain(s);
    if port >= 0 {
      var plus := ['+'] + s;
      assert plus[0] == '+' && plus[1..] == s && plus[|plus| - 1] == s[|s| - 1];
      StripIs(l, plus, r);
      DecimalParses(port);
    }
  }

  /** Nothing but white space, or any character no number has, makes `int` raise. */
  lemma NotANumber(l: string, core: string, r: string)
    requires AllSpace(l) && Bare(core) && AllSpace(r)
    requires core == [] || exists c :: c in core && c !in "0123456789_+-"
    ensures ParseInt(l + core + r) == None
  {
    StripIs(l, core, r);
    if core != [] {
      var c :| c in core && c !in "0123456789_+-";
      DigitListed(c);
      if core[0] == '-' || core[0] == '+' {
        assert core == [core[0]] + core[1..];
        assert "0123456789_+-"[11] == '+' && "0123456789_+-"[12] == '-';
        OnlyDigitsParse(core[1..], c);
      } else {
        OnlyDigitsParse(core, c);
      }
    }
  }

  lemma DigitListed(c: char)
    ensures '0' <= c <= '9' || c == '_' ==> c in "0123456789_+-"
  {
    if '0' <= c <= '9' {
      assert "0123456789_+-"[c as int - '0' as int] == c;
    }
    assert "0123456789_+-"[10] == '_';
  }

  // ----- whole files

  lemma AddressReads(line: string, l: string, address: string, r: string)
    requires RemoveBlanks(line) == l + address + r && AllSpace(l) && Bare(address) && AllSpace(r)
    ensures ReadIp(line + ['\n']) == address
  {
    BlanksAreRemoved(line, ['\n']);
    BlanksAreRemoved(['\n'], []);
    assert l + address + r + ['\n'] == l + address + (r + ['\n']);
    StripIs(l, address, r + ['\n']);
  }

  lemma SecondLine(second: string, more: string)
    requires '\n' !in second && second + more != [] && (more != [] ==> more[0] == '\n')
    ensures var lines := LinesFrom([], second + more); lines != [] && lines[0] == second + more[..Min(1, |more|)]
  {
    if more == [] {
      assert second + more == second && [] + second == second;
      OneLine([], second);
    } else {
      assert second + more == second + ['\n'] + more[1..];
      LineOff([], second, more[1..]);
      assert [] + second + ['\n'] == second + more[..1];
    }
  }

  /**
   The first line gives the address, without blanks and without white space at its ends; the second
   one the port; what follows is not read.  `more` is empty or starts with a line feed.
   */
  lemma TextReads(line: string, l: string, address: string, r: string, second: string, more: string)
    requires '\n' !in line && '\r' !in line && RemoveBlanks(line) == l + address + r
    requires AllSpace(l) && Bare(address) && AllSpace(r)
    requires '\n' !in second && '\r' !in second && second + more != []
    requires '\r' !in more && (more != [] ==> more[0] == '\n')
    ensures ReadText(line + ['\n'] + (second + more)) ==
            ConfigRead(Some(address), ParseInt(second + more[..Min(1, |more|)]))
  {
    var text := line + ['\n'] + (second + more);
    NoNewlinesNoChange(text);
    LineOff([], line, second + more);
    assert [] + line + ['\n'] == line + ['\n'];
    AddressReads(line, l, address, r);
    SecondLine(second, more);
  }

  function Min(a: nat, b: nat): nat {
    if a <= b then a else b
  }

  /** An empty file has no address; a file of one line has no port. */
  lemma ShortTexts(line: string)
    requires '\n' !in line && '\r' !in line
    ensures ReadText([]) == ConfigRead(None, None)
    ensures line != [] ==> ReadText(line) == ConfigRead(Some(ReadIp(line)), None)
    ensures ReadText(line + ['\n']) == ConfigRead(Some(ReadIp(line + ['\n'])), None)
  {
    if line != [] {
      NoNewlinesNoChange(line);
      OneLine([], line);
      assert [] + line == line;
    }
    NoNewlinesNoChange(line + ['\n']);
    assert line + ['\n'] == line + ['\n'] + [];
    LineOff([], line, []);
    assert [] + line + ['\n'] == line + ['\n'];
  }
}
