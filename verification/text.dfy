/**
  Character classes and the small string operations of the Kotlin standard library the core
  relies on: `take`, `isBlank`, `trim`, and the character scans behind its two regular
  expressions.
*/
module Text {

  /** The regex class `[0-9a-zA-Z_]`. */
  predicate IsWordChar(c: char) {
    ('0' <= c <= '9') || ('a' <= c <= 'z') || ('A' <= c <= 'Z') || c == '_'
  }

  /** Every character is in `[0-9a-zA-Z_]`. */
  predicate IsWord(s: string) {
    forall i :: 0 <= i < |s| ==> IsWordChar(s[i])
  }

  /** Joining two words gives a word. */
  lemma WordsJoin(a: string, b: string)
    requires IsWord(a) && IsWord(b)
    ensures IsWord(a + b)
  {
    assert forall k :: 0 <= k < |a| ==> (a + b)[k] == a[k];
    assert forall k :: |a| <= k < |a + b| ==> (a + b)[k] == b[k - |a|];
  }

  /** The alphabet `0123456789abcdef` that test-database suffixes are drawn from. */
  predicate IsLowerHexDigit(c: char) {
    ('0' <= c <= '9') || ('a' <= c <= 'f')
  }

  /** Kotlin's `Char.isWhitespace`: Java's `isWhitespace` together with `isSpaceChar`. */
  predicate IsWhitespace(c: char) {
    ('\t' <= c <= '\r') || ('\U{1C}' <= c <= ' ') || c == '\U{A0}' || c == '\U{1680}'
    || ('\U{2000}' <= c <= '\U{200A}') || c == '\U{2028}' || c == '\U{2029}'
    || c == '\U{202F}' || c == '\U{205F}' || c == '\U{3000}'
  }

  /** The characters `.` does not match in a java.util.regex pattern without DOTALL. */
  predicate IsLineTerminator(c: char) {
    c == '\n' || c == '\r' || c == '\U{85}' || c == '\U{2028}' || c == '\U{2029}'
  }

  /** The character classes the scans run over. */
  datatype CharClass = Whitespace | Word | NotColon | NotSlash | NotLineTerminator

  predicate InClass(c: char, cls: CharClass) {
    match cls
    case Whitespace => IsWhitespace(c)
    case Word => IsWordChar(c)
    case NotColon => c != ':'
    case NotSlash => c != '/'
    case NotLineTerminator => !IsLineTerminator(c)
  }

  /** Kotlin's `isBlank`: empty, or whitespace only. */
  predicate IsBlank(s: string) {
    forall i :: 0 <= i < |s| ==> IsWhitespace(s[i])
  }

  /** Kotlin's `take(n)`: the first `n` characters, or all of them when there are fewer. */
  function Take(s: string, n: nat): (r: string)
    ensures |r| == if |s| < n then |s| else n
    ensures r == s[..|r|]
  {
    if |s| <= n then s else s[..n]
  }

  /**
    The first index at or after `from` whose character is not in class `cls`, or `|s|` when there is none:
    the end of the maximal run of characters of class `cls` starting at `from`.
  */
  function ScanWhile(s: string, from: nat, cls: CharClass): (r: nat)
    requires from <= |s|
    ensures from <= r <= |s|
    decreases |s| - from
  {
    if from == |s| || !InClass(s[from], cls) then from else ScanWhile(s, from + 1, cls)
  }

  /** What ScanWhile finds: a run of class `cls` that cannot be extended. */
  lemma {:induction false} ScanWhileRun(s: string, from: nat, cls: CharClass)
    requires from <= |s|
    ensures forall k :: from <= k < ScanWhile(s, from, cls) ==> InClass(s[k], cls)
    ensures ScanWhile(s, from, cls) == |s| || !InClass(s[ScanWhile(s, from, cls)], cls)
    decreases |s| - from
  {
    if from < |s| && InClass(s[from], cls) {
      ScanWhileRun(s, from + 1, cls);
    }
  }

  /** A run end is determined by the run: any index with ScanWhile's two properties is its result. */
  lemma {:induction false} ScanWhileUnique(s: string, from: nat, cls: CharClass, e: nat)
    requires from <= e <= |s|
    requires forall k :: from <= k < e ==> InClass(s[k], cls)
    requires e == |s| || !InClass(s[e], cls)
    ensures ScanWhile(s, from, cls) == e
    decreases e - from
  {
    if from < e {
      ScanWhileUnique(s, from + 1, cls, e);
    }
  }

  /** A string is a word exactly when the word-character run from its start reaches its end. */
  lemma WordScan(s: string)
    ensures ScanWhile(s, 0, Word) == |s| <==> IsWord(s)
  {
    ScanWhileRun(s, 0, Word);
    if IsWord(s) {
      ScanWhileUnique(s, 0, Word, |s|);
    }
  }

  /**
    The start of the maximal run of characters of class `cls` that ends at `hi`, not going below `lo`.
  */
  function ScanBackWhile(s: string, lo: nat, hi: nat, cls: CharClass): (r: nat)
    requires lo <= hi <= |s|
    ensures lo <= r <= hi
    ensures forall k :: r <= k < hi ==> InClass(s[k], cls)
    ensures r == lo || !InClass(s[r - 1], cls)
    decreases hi - lo
  {
    if hi == lo || !InClass(s[hi - 1], cls) then hi else ScanBackWhile(s, lo, hi - 1, cls)
  }

  /** `r` sits in `s` at offset `a` with only whitespace around it. */
  predicate TrimmedAt(s: string, r: string, a: nat) {
    && a + |r| <= |s|
    && s[a..a + |r|] == r
    && (forall k :: 0 <= k < a ==> IsWhitespace(s[k]))
    && (forall k :: a + |r| <= k < |s| ==> IsWhitespace(s[k]))
  }

  /** Kotlin's `trim()`: drop leading and trailing whitespace. */
  function Trim(s: string): (r: string)
    ensures |r| <= |s|
    ensures r == [] <==> IsBlank(s)
    ensures r != [] ==> !IsWhitespace(r[0]) && !IsWhitespace(r[|r| - 1])
    ensures exists a :: TrimmedAt(s, r, a)
  {
    var a := ScanWhile(s, 0, Whitespace);
    ScanWhileRun(s, 0, Whitespace);
    var b := ScanBackWhile(s, a, |s|, Whitespace);
    assert TrimmedAt(s, s[a..b], a);
    s[a..b]
  }
}
