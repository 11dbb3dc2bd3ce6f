/**
 The header scan of `router_gateway.py`: every leftmost lazy match of `(.*?): (.*?)\r\n` in a
 search response (section 1.3.3 of UPnP Device Architecture 1.1), against a line-by-line parse.
 */
module HeaderScan {
  import opened Wrappers

  /** A match found at `start`: the name ends at `colon`, the value at `end`. */
  datatype Match = Match(start: nat, colon: nat, end: nat)

  datatype Header = Header(name: string, value: string)

  // ----- the regular expression, as a backtracking matcher

  predicate ColonAt(s: string, j: nat) {
    j + 2 <= |s| && s[j] == ':' && s[j + 1] == ' '
  }

  predicate CrLfAt(s: string, k: nat) {
    k + 2 <= |s| && s[k] == '\r' && s[k + 1] == '\n'
  }

  /** `(.*?)\r\n` from `k`: the shortest value first; `.` matches anything but a line feed. */
  function LazyValue(s: string, k: nat): Option<nat>
    requires k <= |s|
    decreases |s| - k
  {
    if CrLfAt(s, k) then Some(k)
    else if k < |s| && s[k] != '\n' then LazyValue(s, k + 1)
    else None
  }

  /** `(.*?): (.*?)\r\n` with the name already reaching `j`: the shortest name that leads to a match. */
  function LazyName(s: string, j: nat): Option<(nat, nat)>
    requires j <= |s|
    decreases |s| - j
  {
    if ColonAt(s, j) && LazyValue(s, j + 2).Some? then Some((j, LazyValue(s, j + 2).value))
    else if j < |s| && s[j] != '\n' then LazyName(s, j + 1)
    else None
  }

  /** The leftmost match at or after `i`. */
  function Search(s: string, i: nat): (m: Option<Match>)
    requires i <= |s|
    ensures m.Some? ==>
              i <= m.value.start <= m.value.colon && m.value.colon + 2 <= m.value.end && m.value.end + 2 <= |s|
    decreases |s| - i
  {
    NameInRange(s, i);
    match LazyName(s, i)
    case Some((colon, end)) => Some(Match(i, colon, end))
    case None => if i < |s| then Search(s, i + 1) else None
  }

  lemma ValueInRange(s: string, k: nat)
    requires k <= |s|
    ensures LazyValue(s, k).Some? ==> k <= LazyValue(s, k).value && LazyValue(s, k).value + 2 <= |s|
    decreases |s| - k
  {
    if !CrLfAt(s, k) && k < |s| && s[k] != '\n' {
      ValueInRange(s, k + 1);
    }
  }

  lemma NameInRange(s: string, j: nat)
    requires j <= |s|
    ensures LazyName(s, j).Some? ==>
              j <= LazyName(s, j).value.0 && LazyName(s, j).value.0 + 2 <= LazyName(s, j).value.1
                  && LazyName(s, j).value.1 + 2 <= |s|
    decreases |s| - j
  {
    if j + 2 <= |s| {
      ValueInRange(s, j + 2);
    }
    if j < |s| && s[j] != '\n' {
      NameInRange(s, j + 1);
    }
  }

  /** `re.findall`: each search starts where the last match ended. */
  function FindAll(s: string, i: nat): seq<Header>
    requires i <= |s|
    decreases |s| - i
  {
    match Search(s, i)
    case None => []
    case Some(m) => [Header(s[m.start..m.colon], s[m.colon + 2..m.end])] + FindAll(s, m.end + 2)
  }

  // ----- the simple reading: line by line

  /** Where the first line feed at or after `i` is. */
  function LineEnd(s: string, i: nat): (e: nat)
    requires i <= |s|
    ensures i <= e <= |s| && (forall k :: i <= k < e ==> s[k] != '\n') && (e < |s| ==> s[e] == '\n')
    decreases |s| - i
  {
    if i == |s| || s[i] == '\n' then i else LineEnd(s, i + 1)
  }

  /** Where the first ": " of a line is. */
  function FirstColon(line: string): (j: Option<nat>)
    ensures j.Some? ==> ColonAt(line, j.value) && forall i :: 0 <= i < j.value ==> !ColonAt(line, i)
    ensures j.None? ==> forall i: nat :: !ColonAt(line, i)
  {
    FirstColonFrom(line, 0)
  }

  function FirstColonFrom(line: string, j: nat): (r: Option<nat>)
    requires j <= |line|
    ensures r.Some? ==> j <= r.value && ColonAt(line, r.value) && forall i :: j <= i < r.value ==> !ColonAt(line, i)
    ensures r.None? ==> forall i: nat :: j <= i ==> !ColonAt(line, i)
    decreases |line| - j
  {
    if ColonAt(line, j) then Some(j) else if j < |line| then FirstColonFrom(line, j + 1) else None
  }

  /** A line ended by CR LF, without that ending, is a header if it contains ": ". */
  function ParseLine(line: string): Option<Header> {
    match FirstColon(line)
    case None => None
    case Some(j) => Some(Header(line[..j], line[j + 2..]))
  }

  /** The headers of the complete lines from `i` on; what follows the last line feed is ignored. */
  function ParseLines(s: string, i: nat): seq<Header>
    requires i <= |s|
    decreases |s| - i
  {
    var e := LineEnd(s, i);
    if e == |s| then []
    else
      var rest := ParseLines(s, e + 1);
      if e > i && s[e - 1] == '\r' then
        (match ParseLine(s[i..e - 1]) case Some(h) => [h] + rest case None => rest)
      else rest
  }

  // ----- they agree

  /** A value can end only at the CR LF that ends its line. */
  lemma {:induction false} ValueEndsLine(s: string, k: nat, e: nat)
    requires k <= |s| && e == LineEnd(s, k)
    ensures LazyValue(s, k) == if e < |s| && k < e && s[e - 1] == '\r' then Some(e - 1) else None
    decreases |s| - k
  {
    if k < e {
      assert LineEnd(s, k + 1) == e;
      ValueEndsLine(s, k + 1, e);
    }
  }

  lemma {:induction false} LineEndFrom(s: string, i: nat, k: nat)
    requires i <= |s| && i <= k <= LineEnd(s, i)
    ensures LineEnd(s, k) == LineEnd(s, i)
    decreases k - i
  {
    if i < k {
      LineEndFrom(s, i + 1, k);
    }
  }

  /** The header of the line that starts at `i` and ends at `e`, if its ": " is at or after `j`. */
  function HeaderFrom(s: string, i: nat, j: nat, e: nat): Option<(nat, nat)>
    requires i <= j <= e <= |s|
  {
    if e < |s| && j < e && s[e - 1] == '\r' then
      match FirstColonFrom(s[i..e - 1], j - i)
      case None => None
      case Some(c) => Some((i + c, e - 1))
    else None
  }

  /** Backtracking over the name never leaves the line, and settles on its first ": ". */
  lemma {:induction false} NameStaysInLine(s: string, i: nat, j: nat, e: nat)
    requires i <= j <= e <= |s| && e == LineEnd(s, i)
    ensures LazyName(s, j) == HeaderFrom(s, i, j, e)
    decreases e - j
  {
    LineEndFrom(s, i, j);
    if j + 2 <= e {
      LineEndFrom(s, i, j + 2);
      ValueEndsLine(s, j + 2, e);
    }
    if j < e {
      NameStaysInLine(s, i, j + 1, e);
      if s[e - 1] == '\r' {
        var line := s[i..e - 1];
        assert ColonAt(line, j - i) <==> ColonAt(s, j) && j < e - 1;
      }
    }
  }

  /** A line without a header is skipped as a whole. */
  lemma {:induction false} LineSkipped(s: string, i: nat, j: nat, e: nat)
    requires i <= j <= e <= |s| && e == LineEnd(s, i) && HeaderFrom(s, i, j, e).None?
    ensures Search(s, j) == if e < |s| then Search(s, e + 1) else None
    decreases e - j
  {
    NameStaysInLine(s, i, j, e);
    if j < e {
      if s[e - 1] == '\r' && j + 1 < e && e < |s| {
        assert FirstColonFrom(s[i..e - 1], j + 1 - i).None?;
      }
      LineSkipped(s, i, j + 1, e);
    }
  }

  lemma SameSearchSameFinds(s: string, i: nat, j: nat)
    requires i <= |s| && j <= |s| && Search(s, i) == Search(s, j)
    ensures FindAll(s, i) == FindAll(s, j)
  {
  }

  /** A line with a header is one match. */
  lemma HeaderLine(s: string, i: nat, e: nat)
    requires i <= e <= |s| && e == LineEnd(s, i) && HeaderFrom(s, i, i, e).Some?
    ensures Search(s, i) == Some(Match(i, HeaderFrom(s, i, i, e).value.0, e - 1))
    ensures ParseLine(s[i..e - 1]) == Some(Header(s[i..HeaderFrom(s, i, i, e).value.0],
            s[HeaderFrom(s, i, i, e).value.0 + 2..e - 1]))
  {
    NameStaysInLine(s, i, i, e);
    var line, c := s[i..e - 1], HeaderFrom(s, i, i, e).value.0;
    assert FirstColon(line) == Some(c - i);
    assert line[..c - i] == s[i..c] && line[c - i + 2..] == s[c + 2..e - 1];
  }

  lemma HeaderFound(s: string, i: nat, e: nat, h: Header)
    requires i <= e < |s| && e == LineEnd(s, i) && HeaderFrom(s, i, i, e).Some? && ParseLine(s[i..e - 1]) == Some(h)
    ensures FindAll(s, i) == [h] + FindAll(s, e + 1)
  {
    HeaderLine(s, i, e);
  }

  lemma HeaderParsed(s: string, i: nat, e: nat)
    requires i < e < |s| && e == LineEnd(s, i) && s[e - 1] == '\r'
    ensures ParseLines(s, i) == match ParseLine(s[i..e - 1]) case Some(h) => [h] + ParseLines(s, e + 1)
            case None => ParseLines(s, e + 1)
  {
  }

  lemma NoHeaderLine(s: string, i: nat, e: nat)
    requires i <= e < |s| && e == LineEnd(s, i) && HeaderFrom(s, i, i, e).None?
    ensures ParseLines(s, i) == ParseLines(s, e + 1)
  {
    if e > i && s[e - 1] == '\r' {
      assert FirstColon(s[i..e - 1]).None?;
      HeaderParsed(s, i, e);
    }
  }

  /** Both readings take a line with a header, and go on behind it. */
  lemma LineRead(s: string, i: nat, e: nat) returns (h: Header)
    requires i <= e <= |s| && e == LineEnd(s, i) && HeaderFrom(s, i, i, e).Some?
    ensures e < |s| && FindAll(s, i) == [h] + FindAll(s, e + 1) && ParseLines(s, i) == [h] + ParseLines(s, e + 1)
  {
    HeaderLine(s, i, e);
    h := ParseLine(s[i..e - 1]).value;
    HeaderFound(s, i, e, h);
    HeaderParsed(s, i, e);
  }

  /** And both pass over a line without one. */
  lemma LinePassed(s: string, i: nat, e: nat)
    requires i <= e < |s| && e == LineEnd(s, i) && HeaderFrom(s, i, i, e).None?
    ensures FindAll(s, i) == FindAll(s, e + 1) && ParseLines(s, i) == ParseLines(s, e + 1)
  {
    LineSkipped(s, i, i, e);
    NoHeaderLine(s, i, e);
    SameSearchSameFinds(s, i, e + 1);
  }

  /** What follows the last line feed is read by neither. */
  lemma LastLine(s: string, i: nat)
    requires i <= |s| && LineEnd(s, i) == |s|
    ensures FindAll(s, i) == [] && ParseLines(s, i) == []
  {
    LineSkipped(s, i, i, |s|);
  }

  /** The iterated leftmost lazy match reads exactly the headers of the complete lines. */
  lemma {:induction false} FindAllIsParseLines(s: string, i: nat)
    requires i <= |s|
    ensures FindAll(s, i) == ParseLines(s, i)
    decreases |s| - i
  {
    var e := LineEnd(s, i);
    if e == |s| {
      LastLine(s, i);
    } else if HeaderFrom(s, i, i, e).Some? {
      var h := LineRead(s, i, e);
      FindAllIsParseLines(s, e + 1);
    } else {
      LinePassed(s, i, e);
      FindAllIsParseLines(s, e + 1);
    }
  }

  // ----- the matcher is the regular expression

  predicate NoLineFeed(s: string, i: nat, k: nat)
    requires i <= k <= |s|
  {
    forall x :: i <= x < k ==> s[x] != '\n'
  }

  /** `m` is some way to match the expression. */
  predicate IsMatch(s: string, m: Match) {
    && m.start <= m.colon && m.colon + 2 <= m.end && m.end + 2 <= |s|
    && NoLineFeed(s, m.start, m.colon) && ColonAt(s, m.colon)
    && NoLineFeed(s, m.colon + 2, m.end) && CrLfAt(s, m.end)
  }

  /** Leftmost first, then the shorter name, then the shorter value. */
  predicate Preferred(m: Match, other: Match) {
    m.start < other.start || (m.start == other.start
        && (m.colon < other.colon || (m.colon == other.colon && m.end <= other.end)))
  }

  lemma {:induction false} LazyValueIsShortest(s: string, k: nat, end: nat)
    requires k <= end && end + 2 <= |s| && NoLineFeed(s, k, end) && CrLfAt(s, end)
    ensures LazyValue(s, k).Some? && LazyValue(s, k).value <= end
    decreases end - k
  {
    if k < end && !CrLfAt(s, k) {
      LazyValueIsShortest(s, k + 1, end);
    }
  }

  lemma {:induction false} LazyValueMatches(s: string, k: nat)
    requires k <= |s| && LazyValue(s, k).Some?
    ensures var end := LazyValue(s, k).value; k <= end && end + 2 <= |s| && NoLineFeed(s, k, end) && CrLfAt(s, end)
    decreases |s| - k
  {
    if !CrLfAt(s, k) {
      LazyValueMatches(s, k + 1);
    }
  }

  lemma {:induction false} LazyNameMatches(s: string, i: nat, j: nat)
    requires i <= j <= |s| && NoLineFeed(s, i, j) && LazyName(s, j).Some?
    ensures IsMatch(s, Match(i, LazyName(s, j).value.0, LazyName(s, j).value.1))
    decreases |s| - j
  {
    if ColonAt(s, j) && LazyValue(s, j + 2).Some? {
      LazyValueMatches(s, j + 2);
    } else {
      LazyNameMatches(s, i, j + 1);
    }
  }

  lemma {:induction false} LazyNameIsShortest(s: string, j: nat, m: Match)
    requires IsMatch(s, m) && m.start <= j <= m.colon
    ensures LazyName(s, j).Some?
    ensures LazyName(s, j).value.0 < m.colon || (LazyName(s, j).value.0 == m.colon && LazyName(s, j).value.1 <= m.end)
    decreases m.colon - j
  {
    LazyValueIsShortest(s, m.colon + 2, m.end);
    if j < m.colon && !(ColonAt(s, j) && LazyValue(s, j + 2).Some?) {
      LazyNameIsShortest(s, j + 1, m);
    }
  }

  /** The search finds a match if there is one, and the one the leftmost lazy rule prefers to all others. */
  lemma {:induction false} SearchIsLeftmostLazy(s: string, i: nat, other: Match)
    requires i <= |s|
    ensures Search(s, i).Some? ==> IsMatch(s, Search(s, i).value) && i <= Search(s, i).value.start
    ensures IsMatch(s, other) && i <= other.start ==> Search(s, i).Some? && Preferred(Search(s, i).value, other)
    decreases |s| - i
  {
    if LazyName(s, i).Some? {
      LazyNameMatches(s, i, i);
    }
    if IsMatch(s, other) && other.start == i {
      LazyNameIsShortest(s, i, other);
    } else if LazyName(s, i).None? && i < |s| {
      SearchIsLeftmostLazy(s, i + 1, other);
    }
  }

  // ----- the location

  /** `str.lower` on the letters that matter: no other character lowers to a single ASCII letter of "location". */
  function Lower(name: string): string {
    seq(|name|, i requires 0 <= i < |name| => if 'A' <= name[i] <= 'Z' then name[i] + (32 as char) else name[i])
  }

  predicate IsLocation(h: Header) {
    Lower(h.name) == "location"
  }

  function Locations(headers: seq<Header>): seq<string> {
    if headers == [] then []
    else (if IsLocation(headers[0]) then [headers[0].value] else []) + Locations(headers[1..])
  }

  /** `_extract_location`, on the decoded response. */
  function ExtractLocation(response: string): Option<string> {
    var matches := Locations(FindAll(response, 0));
    if matches != [] then Some(matches[0]) else None
  }

  lemma {:induction false} FirstLocation(headers: seq<Header>)
    ensures Locations(headers) == [] <==> forall i :: 0 <= i < |headers| ==> !IsLocation(headers[i])
    ensures forall k ::
              0 <= k < |headers| && IsLocation(headers[k]) && (forall i :: 0 <= i < k ==> !IsLocation(headers[i])) ==>
              Locations(headers) != [] && Locations(headers)[0] == headers[k].value
  {
    if headers != [] {
      FirstLocation(headers[1..]);
      forall k | 0 < k < |headers| && IsLocation(headers[k]) && (forall i :: 0 <= i < k ==> !IsLocation(headers[i]))
        ensures Locations(headers) != [] && Locations(headers)[0] == headers[k].value
      {
        assert IsLocation(headers[1..][k - 1]) && forall i :: 0 <= i < k - 1 ==> !IsLocation(headers[1..][i]);
      }
      assert forall i :: 0 < i < |headers| ==> headers[i] == headers[1..][i - 1];
    }
  }

  /** "location" in any mixture of cases. */
  predicate NamesLocation(name: string) {
    |name| == 8 && forall i :: 0 <= i < 8 ==> name[i] == "location"[i] || name[i] == "LOCATION"[i]
  }

  lemma LocationInAnyCase(h: Header)
    ensures IsLocation(h) <==> NamesLocation(h.name)
  {
    var lower := Lower(h.name);
    if IsLocation(h) {
      assert |lower| == 8 && forall i :: 0 <= i < 8 ==> lower[i] == "location"[i];
    }
    if NamesLocation(h.name) {
      assert forall i :: 0 <= i < 8 ==> lower[i] == "location"[i];
      assert lower == "location";
    }
  }

  /**
   The location is the value of the first header line named "location" in any case, in the
   line-by-line reading; without such a line there is none.
   */
  lemma LocationIsFirstHeader(response: string)
    ensures var headers := ParseLines(response, 0);
            && (ExtractLocation(response).None? <==>
                  forall i :: 0 <= i < |headers| ==> !NamesLocation(headers[i].name))
            && (forall k ::
                  0 <= k < |headers| && NamesLocation(headers[k].name)
                  && (forall i :: 0 <= i < k ==> !NamesLocation(headers[i].name)) ==>
                  ExtractLocation(response) == Some(headers[k].value))
  {
    var headers := ParseLines(response, 0);
    FindAllIsParseLines(response, 0);
    FirstLocation(headers);
    forall i | 0 <= i < |headers| ensures IsLocation(headers[i]) <==> NamesLocation(headers[i].name) {
      LocationInAnyCase(headers[i]);
    }
  }

  /**
   In the text itself: a line from `m.start` on that ends with CR LF at `m.end`, whose first ": " is
   at `m.colon`, with the name in front of it.
   */
  ghost predicate LocationAt(s: string, m: Match) {
    && m.start <= m.colon && m.colon + 2 <= m.end && m.end + 2 <= |s|
    && (m.start == 0 || s[m.start - 1] == '\n')
    && (forall k :: m.start <= k < m.end + 1 ==> s[k] != '\n') && CrLfAt(s, m.end)
    && ColonAt(s, m.colon) && (forall k :: m.start <= k < m.colon ==> !ColonAt(s, k))
    && NamesLocation(s[m.start..m.colon])
  }

  lemma LocationLine(s: string, m: Match)
    requires LocationAt(s, m)
    ensures LineEnd(s, m.start) == m.end + 1
    ensures ParseLine(s[m.start..m.end]) == Some(Header(s[m.start..m.colon], s[m.colon + 2..m.end]))
  {
    var line := s[m.start..m.end];
    assert forall k :: 0 <= k < |line| - 1 ==> (ColonAt(line, k) <==> ColonAt(s, m.start + k));
    assert FirstColon(line) == Some(m.colon - m.start) by {
      assert ColonAt(line, m.colon - m.start);
    }
    assert line[..m.colon - m.start] == s[m.start..m.colon] && line[m.colon - m.start + 2..] == s[m.colon + 2..m.end];
  }

  lemma HeaderInText(s: string, i: nat, e: nat, h: Header) returns (m: Match)
    requires i < e < |s| && e == LineEnd(s, i) && s[e - 1] == '\r' && (i == 0 || s[i - 1] == '\n')
    requires ParseLine(s[i..e - 1]) == Some(h) && NamesLocation(h.name)
    ensures m.start == i && LocationAt(s, m) && h.value == s[m.colon + 2..m.end]
  {
    var line := s[i..e - 1];
    var c := FirstColon(line).value;
    m := Match(i, i + c, e - 1);
    assert line[..c] == s[i..i + c] && line[c + 2..] == s[i + c + 2..e - 1];
    assert forall k :: 0 <= k < |line| - 1 ==> (ColonAt(line, k) <==> ColonAt(s, i + k));
    assert forall k :: i <= k < m.colon ==> ColonAt(line, k - i) == ColonAt(s, k);
  }

  lemma StartsApart(s: string, b: nat, m: Match)
    requires b <= |s| && LocationAt(s, m) && b <= m.start
    ensures m.start == b || LineEnd(s, b) < m.start
  {
    assert m.start == b || s[m.start - 1] == '\n';
  }

  /** What one line adds to the locations. */
  function LocationOfLine(s: string, b: nat, e: nat): seq<string>
    requires b <= e < |s|
  {
    if e > b && s[e - 1] == '\r' && ParseLine(s[b..e - 1]).Some? && NamesLocation(ParseLine(s[b..e - 1]).value.name)
    then [ParseLine(s[b..e - 1]).value.value]
    else []
  }

  lemma LocationsOfLine(s: string, b: nat, e: nat)
    requires b <= e < |s| && e == LineEnd(s, b)
    ensures Locations(ParseLines(s, b)) == LocationOfLine(s, b, e) + Locations(ParseLines(s, e + 1))
  {
    if e > b && s[e - 1] == '\r' && ParseLine(s[b..e - 1]).Some? {
      var h, rest := ParseLine(s[b..e - 1]).value, ParseLines(s, e + 1);
      LocationInAnyCase(h);
      HeaderParsed(s, b, e);
      assert ([h] + rest)[0] == h && ([h] + rest)[1..] == rest;
    }
  }

  lemma LocationHere(s: string, b: nat, m: Match)
    requires b <= |s| && LocationAt(s, m) && m.start == b
    ensures LineEnd(s, b) == m.end + 1 && LocationOfLine(s, b, m.end + 1) == [s[m.colon + 2..m.end]]
  {
    LocationLine(s, m);
  }

  /** No location line starts from `a` on and before `b`. */
  ghost predicate NoLocation(s: string, a: nat, b: nat) {
    forall m :: LocationAt(s, m) ==> m.start < a || b <= m.start
  }

  lemma NoLocationInLine(s: string, b: nat)
    requires b <= |s| && (LineEnd(s, b) < |s| ==> LocationOfLine(s, b, LineEnd(s, b)) == [])
    ensures NoLocation(s, b, LineEnd(s, b) + 1)
  {
    forall m | LocationAt(s, m) ensures m.start < b || LineEnd(s, b) < m.start {
      if b <= m.start {
        StartsApart(s, b, m);
        if m.start == b {
          LocationHere(s, b, m);
        }
      }
    }
  }

  lemma NoLocationJoins(s: string, a: nat, b: nat, c: nat)
    requires NoLocation(s, a, b) && NoLocation(s, b, c)
    ensures NoLocation(s, a, c)
  {
  }

  /** The locations from `b` on; the trigger keeps the verifier from reading on line by line. */
  ghost predicate LocationsFrom(s: string, b: nat, found: seq<string>)
    requires b <= |s|
  {
    forall x: nat {:trigger ParseLines(s, x)} :: x == b ==> Locations(ParseLines(s, x)) == found
  }

  lemma LineSplits(s: string, b: nat, e: nat, found: seq<string>) returns (rest: seq<string>)
    requires b <= e < |s| && e == LineEnd(s, b) && LocationsFrom(s, b, found)
    ensures found == LocationOfLine(s, b, e) + rest && LocationsFrom(s, e + 1, rest)
  {
    rest := Locations(ParseLines(s, e + 1));
    LocationsOfLine(s, b, e);
  }

  lemma LocationsEnd(s: string, b: nat, found: seq<string>)
    requires b <= |s| && LineEnd(s, b) == |s| && LocationsFrom(s, b, found)
    ensures found == []
  {
    assert ParseLines(s, b) == [];
  }

  lemma HeaderHere(s: string, b: nat, e: nat) returns (m: Match)
    requires b <= e < |s| && e == LineEnd(s, b) && (b == 0 || s[b - 1] == '\n') && LocationOfLine(s, b, e) != []
    ensures LocationAt(s, m) && m.start == b && LocationOfLine(s, b, e) == [s[m.colon + 2..m.end]]
  {
    m := HeaderInText(s, b, e, ParseLine(s[b..e - 1]).value);
    LocationHere(s, b, m);
  }

  lemma {:induction false} FirstLocationFrom(s: string, b: nat, values: seq<string>) returns (found: Option<Match>)
    requires b <= |s| && (b == 0 || s[b - 1] == '\n') && LocationsFrom(s, b, values)
    ensures found.None? ==> values == [] && NoLocation(s, b, |s| + 1)
    ensures found.Some? ==>
              && LocationAt(s, found.value) && NoLocation(s, b, found.value.start)
              && values != [] && values[0] == s[found.value.colon + 2..found.value.end]
    decreases |s| - b
  {
    var e := LineEnd(s, b);
    if e == |s| {
      LocationsEnd(s, b, values);
      NoLocationInLine(s, b);
      return None;
    }
    var rest := LineSplits(s, b, e, values);
    if LocationOfLine(s, b, e) != [] {
      var m := HeaderHere(s, b, e);
      return Some(m);
    }
    assert values == rest;
    NoLocationInLine(s, b);
    found := FirstLocationFrom(s, e + 1, rest);
    NoLocationJoins(s, b, e + 1, if found.Some? then found.value.start else |s| + 1);
  }

  lemma ExtractsFirst(response: string) returns (values: seq<string>)
    ensures LocationsFrom(response, 0, values)
    ensures ExtractLocation(response) == if values == [] then None else Some(values[0])
  {
    FindAllIsParseLines(response, 0);
    values := Locations(ParseLines(response, 0));
  }

  lemma SameLine(s: string, m: Match, n: Match)
    requires LocationAt(s, m) && LocationAt(s, n) && m.start == n.start
    ensures s[m.colon + 2..m.end] == s[n.colon + 2..n.end]
  {
    LocationHere(s, m.start, m);
    LocationHere(s, n.start, n);
    assert [s[m.colon + 2..m.end]][0] == [s[n.colon + 2..n.end]][0];
  }

  /** So the location is the value of the first such line of the text. */
  lemma LocationInText(response: string, m: Match)
    requires LocationAt(response, m) && NoLocation(response, 0, m.start)
    ensures ExtractLocation(response) == Some(response[m.colon + 2..m.end])
  {
    var values := ExtractsFirst(response);
    var found := FirstLocationFrom(response, 0, values);
    if found.Some? {
      SameStart(response, m, found.value);
      SameLine(response, m, found.value);
    }
  }

  lemma SameStart(s: string, m: Match, n: Match)
    requires LocationAt(s, m) && NoLocation(s, 0, m.start) && LocationAt(s, n) && NoLocation(s, 0, n.start)
    ensures m.start == n.start
  {
  }

  /** And there is none if and only if the text has no such line. */
  lemma NoLocationInText(response: string)
    ensures ExtractLocation(response).None? <==> NoLocation(response, 0, |response| + 1)
  {
    var values := ExtractsFirst(response);
    var found := FirstLocationFrom(response, 0, values);
    if found.Some? {
      assert LocationAt(response, found.value) && found.value.start <= |response|;
    }
  }
}
