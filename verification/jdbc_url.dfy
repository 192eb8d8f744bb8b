/**
  The data-source URL pattern
    `(?<driver>jdbc:[^:]*)://(?<host>[^/]*)/(?<dbname>[0-9a-zA-Z_]+)(?<options>.*)`
  applied with `Matcher.find()`, and the two uses the manager makes of it: substituting a
  database name (`replaceDbName`) and extracting the base database name (`getBaseDbName`).

  The pattern is deterministic from a given start: `[^:]*` must stop at the first `:`,
  `[^/]*` at the first `/`, the name is the maximal `[0-9a-zA-Z_]` run (the options group
  accepts whatever follows), and `.*` runs to the first line terminator. `find()` tries each
  start in turn and reports the first that matches.
*/
module JdbcUrl {

  import opened Wrappers
  import opened Text
  import opened Exceptions

  const REPLACE_MESSAGE :=
    "Provided DataSource URL did not match expected pattern: could not replace DB name"
  const EXTRACT_MESSAGE :=
    "Provided DataSource URL did not match expected pattern: could not extract DB name"

  /** `s` has the literal `jdbc:` at offset `i`. */
  predicate HasDriverPrefix(s: string, i: nat) {
    i + 5 <= |s| && s[i] == 'j' && s[i + 1] == 'd' && s[i + 2] == 'b' && s[i + 3] == 'c' && s[i + 4] == ':'
  }

  /**
    Where a match lies: it starts at `start`, its `://` is at `colon`, the `/` before the
    database name at `slash`, the name ends at `nameEnd` and the options at `end`.
  */
  datatype Span = Span(start: nat, colon: nat, slash: nat, nameEnd: nat, end: nat)

  /** The facts that make a span a match of the pattern that `find()` reports. */
  predicate MatchPositions(s: string, m: Span) {
    && m.start + 5 <= m.colon && m.colon + 3 <= m.slash && m.slash + 1 < m.nameEnd <= m.end <= |s|
    && HasDriverPrefix(s, m.start)
    && (forall k :: m.start + 5 <= k < m.colon ==> s[k] != ':')
    && s[m.colon] == ':' && s[m.colon + 1] == '/' && s[m.colon + 2] == '/'
    && (forall k :: m.colon + 3 <= k < m.slash ==> s[k] != '/')
    && s[m.slash] == '/'
    && (forall k :: m.slash + 1 <= k < m.nameEnd ==> IsWordChar(s[k]))
    && (m.nameEnd == |s| || !IsWordChar(s[m.nameEnd]))
    && (forall k :: m.nameEnd <= k < m.end ==> !IsLineTerminator(s[k]))
    && (m.end == |s| || IsLineTerminator(s[m.end]))
  }

  /** The pattern tried at start position `i`. */
  function MatchAt(s: string, i: nat): (r: Option<Span>)
    requires i <= |s|
    ensures r.Some? ==> r.value.start == i
  {
    if !HasDriverPrefix(s, i) then None
    else
      var colon := ScanWhile(s, i + 5, NotColon);
      if !(colon + 3 <= |s| && s[colon + 1] == '/' && s[colon + 2] == '/') then None
      else
        var slash := ScanWhile(s, colon + 3, NotSlash);
        if slash == |s| then None
        else
          var nameEnd := ScanWhile(s, slash + 1, Word);
          if nameEnd == slash + 1 then None
          else Some(Span(i, colon, slash, nameEnd, ScanWhile(s, nameEnd, NotLineTerminator)))
  }

  /** A span MatchAt reports has the match properties. */
  lemma MatchAtSound(s: string, i: nat)
    requires i <= |s|
    ensures MatchAt(s, i).Some? ==> MatchPositions(s, MatchAt(s, i).value)
  {
    if MatchAt(s, i).Some? {
      var m := MatchAt(s, i).value;
      ScanWhileRun(s, i + 5, NotColon);
      ScanWhileRun(s, m.colon + 3, NotSlash);
      ScanWhileRun(s, m.slash + 1, Word);
      ScanWhileRun(s, m.nameEnd, NotLineTerminator);
    }
  }

  /** Any span with the match properties is what MatchAt reports at its start. */
  lemma MatchAtPositions(s: string, m: Span)
    requires MatchPositions(s, m)
    ensures MatchAt(s, m.start) == Some(m)
  {
    ScanWhileUnique(s, m.start + 5, NotColon, m.colon);
    ScanWhileUnique(s, m.colon + 3, NotSlash, m.slash);
    ScanWhileUnique(s, m.slash + 1, Word, m.nameEnd);
    ScanWhileUnique(s, m.nameEnd, NotLineTerminator, m.end);
  }

  /**
    `Matcher.find()` from start position `i` onwards: the first start that matches, and
    nothing exactly when no start at or after `i` matches.
  */
  function FindFrom(s: string, i: nat): (r: Option<Span>)
    requires i <= |s|
    ensures r.Some? ==> i <= r.value.start <= |s| && MatchAt(s, r.value.start) == r
    ensures r.Some? ==> forall j :: i <= j < r.value.start ==> MatchAt(s, j).None?
    ensures r.None? ==> forall j :: i <= j <= |s| ==> MatchAt(s, j).None?
    decreases |s| - i
  {
    match MatchAt(s, i)
    case Some(m) => Some(m)
    case None => if i == |s| then None else FindFrom(s, i + 1)
  }

  /** The four named groups of a match. */
  datatype UrlParts = UrlParts(driver: string, host: string, dbname: string, options: string)

  /** The groups of the match at span `m`. */
  function Groups(s: string, m: Span): UrlParts
    requires MatchPositions(s, m)
  {
    UrlParts(s[m.start..m.colon], s[m.colon + 3..m.slash], s[m.slash + 1..m.nameEnd], s[m.nameEnd..m.end])
  }

  /** `DS_URL_PATTERN.toPattern().matcher(s).find()`, with the groups of the first match. */
  function Parse(s: string): (r: Option<UrlParts>)
    ensures r.Some? ==> WellFormed(r.value)
  {
    match FindFrom(s, 0)
    case Some(m) =>
      MatchAtSound(s, m.start);
      GroupsWellFormed(s, m);
      Some(Groups(s, m))
    case None => None
  }

  /** The text a match covers, rebuilt from its groups. */
  function Render(p: UrlParts): string {
    p.driver + "://" + p.host + "/" + p.dbname + p.options
  }

  /** The shape every match of the pattern has. */
  predicate WellFormed(p: UrlParts) {
    && HasDriverPrefix(p.driver, 0)
    && (forall k :: 5 <= k < |p.driver| ==> p.driver[k] != ':')
    && (forall k :: 0 <= k < |p.host| ==> p.host[k] != '/')
    && |p.dbname| >= 1 && IsWord(p.dbname)
    && (forall k :: 0 <= k < |p.options| ==> !IsLineTerminator(p.options[k]))
    && (|p.options| == 0 || !IsWordChar(p.options[0]))
  }

  lemma GroupsWellFormed(s: string, m: Span)
    requires MatchPositions(s, m)
    ensures WellFormed(Groups(s, m))
  {
    var p := Groups(s, m);
    assert forall k :: 0 <= k < |p.driver| ==> p.driver[k] == s[m.start + k];
    assert forall k :: 0 <= k < |p.host| ==> p.host[k] == s[m.colon + 3 + k];
    assert forall k :: 0 <= k < |p.dbname| ==> p.dbname[k] == s[m.slash + 1 + k];
    assert forall k :: 0 <= k < |p.options| ==> p.options[k] == s[m.nameEnd + k];
  }

  /** A match covers the text it is rebuilt from: the rendering of its groups is `s[start..end]`. */
  lemma GroupsRender(s: string, m: Span)
    requires MatchPositions(s, m)
    ensures Render(Groups(s, m)) == s[m.start..m.end]
  {
    assert s[m.colon..m.colon + 3] == "://";
    assert s[m.slash..m.slash + 1] == "/";
    SlicesRender(s, m.start, m.colon, m.slash, m.nameEnd, m.end);
  }

  /** Five cut points with `://` after the first and `/` after the second reassemble the text between them. */
  lemma SlicesRender(s: string, a: nat, b: nat, c: nat, d: nat, e: nat)
    requires a <= b && b + 3 <= c && c + 1 <= d <= e <= |s|
    requires s[b..b + 3] == "://" && s[c..c + 1] == "/"
    ensures s[a..b] + "://" + s[b + 3..c] + "/" + s[c + 1..d] + s[d..e] == s[a..e]
  {
    SliceSplit(s, b, b + 3, a);
    SliceSplit(s, b + 3, c, a);
    SliceSplit(s, c, c + 1, a);
    SliceSplit(s, c + 1, d, a);
    SliceSplit(s, d, e, a);
  }

  /** Adjacent slices join: `s[lo..mid] + s[mid..hi] == s[lo..hi]`. */
  lemma SliceSplit(s: string, mid: nat, hi: nat, lo: nat)
    requires lo <= mid <= hi <= |s|
    ensures s[lo..hi] == s[lo..mid] + s[mid..hi]
  {
  }

  /** The span of a well-formed match within its own rendering. */
  function RenderedSpan(p: UrlParts): Span {
    var c := |p.driver|;
    var sl := c + 3 + |p.host|;
    Span(0, c, sl, sl + 1 + |p.dbname|, |Render(p)|)
  }

  /** Where each group sits in a rendering. */
  lemma RenderSlices(p: UrlParts)
    ensures var s := Render(p); var m := RenderedSpan(p);
            && m.nameEnd <= |s|
            && s[..m.colon] == p.driver
            && s[m.colon..m.colon + 3] == "://"
            && s[m.colon + 3..m.slash] == p.host
            && s[m.slash] == '/'
            && s[m.slash + 1..m.nameEnd] == p.dbname
            && s[m.nameEnd..] == p.options
  {
    var s := Render(p);
    var m := RenderedSpan(p);
    assert s[..m.colon] == p.driver;
    assert s[m.colon..m.colon + 3] == "://";
    assert s[m.colon + 3..m.slash] == p.host;
    assert s[m.slash + 1..m.nameEnd] == p.dbname;
    assert s[m.nameEnd..] == p.options;
  }

  lemma RenderPositions(p: UrlParts)
    requires WellFormed(p)
    ensures MatchPositions(Render(p), RenderedSpan(p))
    ensures Groups(Render(p), RenderedSpan(p)) == p
  {
    RenderSlices(p);
  }

  /** Parsing a rendered match gives back its groups: `Parse(Render(p)) == Some(p)`. */
  lemma ParseRender(p: UrlParts)
    requires WellFormed(p)
    ensures Parse(Render(p)) == Some(p)
  {
    RenderPositions(p);
    MatchAtPositions(Render(p), RenderedSpan(p));
  }

  /** `replaceDbName`: the data-source URL with its database name replaced by `name`. */
  function ReplaceDbName(dsUrl: string, name: string): (r: Result<string, Error>)
    ensures name == "default" ==> r == Success(dsUrl)
    ensures name != "default" && Parse(dsUrl).None? ==> r == Failure(IllegalArgument(REPLACE_MESSAGE))
    ensures name != "default" && Parse(dsUrl).Some? ==>
              r == Success(Render(Parse(dsUrl).value.(dbname := name)))
  {
    if name == "default" then Success(dsUrl)
    else
      match Parse(dsUrl)
      case Some(p) => Success(p.driver + "://" + p.host + "/" + name + p.options)
      case None => Failure(IllegalArgument(REPLACE_MESSAGE))
  }

  /**
    Round trip: for a non-empty `[0-9a-zA-Z_]+` name, the database name found in the rebuilt
    URL is `name`, and driver, host and options are those of the data-source URL.
  */
  lemma ReplaceDbNameRoundTrip(dsUrl: string, name: string)
    requires name != "default" && |name| >= 1 && IsWord(name)
    requires Parse(dsUrl).Some?
    ensures ReplaceDbName(dsUrl, name).Success?
    ensures Parse(ReplaceDbName(dsUrl, name).value) == Some(Parse(dsUrl).value.(dbname := name))
  {
    ParseRender(Parse(dsUrl).value.(dbname := name));
  }

  /** `getBaseDbName`: the data-source URL's database name, cut to 18 characters. */
  function BaseDbName(dsUrl: string): (r: Result<string, Error>)
    ensures r.Success? <==> Parse(dsUrl).Some?
    ensures r.Success? ==> r.value == Take(Parse(dsUrl).value.dbname, 18)
    ensures r.Success? ==> 1 <= |r.value| <= 18 && IsWord(r.value)
    ensures r.Failure? ==> r.error == IllegalArgument(EXTRACT_MESSAGE)
  {
    match Parse(dsUrl)
    case Some(p) => Success(Take(p.dbname, 18))
    case None => Failure(IllegalArgument(EXTRACT_MESSAGE))
  }
}
