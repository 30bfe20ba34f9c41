/**
 * The document splitter of `cmd/helm.go`: the split function
 * `scanYamlSpecs`, and the `bufio.Scanner` that drives it over a manifest
 * with a token cap of 10485760 bytes.
 */
module YamlSplit {
  import opened Wrappers
  import opened Resources

  /** The literal `"\n---\n"` that separates documents. */
  const Separator: seq<byte> := [10, 45, 45, 45, 10]

  /** The largest buffer the scanner may grow to (`scanner.Buffer(..., 10485760)`). */
  const MaxTokenSize: nat := 10485760

  /** `p` occurs in `s` starting at index `j`. */
  predicate OccursAt(s: seq<byte>, p: seq<byte>, j: int)
  {
    0 <= j && j + |p| <= |s| && s[j..j + |p|] == p
  }

  predicate Contains(s: seq<byte>, p: seq<byte>)
  {
    exists j :: 0 <= j <= |s| - |p| && OccursAt(s, p, j)
  }

  /** The separator occurs at `i` and nowhere before it. */
  predicate FirstSeparatorAt(data: seq<byte>, i: int)
  {
    OccursAt(data, Separator, i) && forall j :: 0 <= j < i ==> !OccursAt(data, Separator, j)
  }

  /** An occurrence inside a prefix is an occurrence in the whole. */
  lemma OccursInPrefix(s: seq<byte>, p: seq<byte>, n: nat, j: int)
    requires n <= |s| && OccursAt(s[..n], p, j)
    ensures OccursAt(s, p, j) && j + |p| <= n
  {
    assert s[..n][j..j + |p|] == s[j..j + |p|];
  }

  /** An occurrence that ends inside a prefix is an occurrence in that prefix. */
  lemma OccursInWhole(s: seq<byte>, p: seq<byte>, n: nat, j: int)
    requires n <= |s| && OccursAt(s, p, j) && j + |p| <= n
    ensures OccursAt(s[..n], p, j)
  {
    assert s[..n][j..j + |p|] == s[j..j + |p|];
  }

  /** The part of `data` before the first separator holds no separator. */
  lemma BeforeFirstIsFree(data: seq<byte>, i: int)
    requires FirstSeparatorAt(data, i)
    ensures !Contains(data[..i], Separator)
  {
    if j :| OccursAt(data[..i], Separator, j) {
      OccursInPrefix(data, Separator, i, j);
    }
  }

  /** The first separator of a prefix of `s` is the first separator of `s`, which splits `s` around it. */
  lemma FirstInWindowIsFirst(s: seq<byte>, n: nat, i: int)
    requires n <= |s| && FirstSeparatorAt(s[..n], i)
    ensures FirstSeparatorAt(s, i) && i + |Separator| <= n
    ensures s == s[..n][..i] + Separator + s[i + |Separator|..]
  {
    OccursInPrefix(s, Separator, n, i);
    forall j | 0 <= j < i
      ensures !OccursAt(s, Separator, j)
    {
      if OccursAt(s, Separator, j) {
        OccursInWhole(s, Separator, n, j);
      }
    }
    assert s[..n][..i] == s[..i];
    assert s == s[..i] + Separator + s[i + |Separator|..];
  }

  /** `bytes.Index(data[k..], pat)`, offset by `k`: the first occurrence at or after `k`, or -1. */
  function IndexFrom(data: seq<byte>, pat: seq<byte>, k: nat): (i: int)
    requires k <= |data|
    decreases |data| - k
    ensures i == -1 || (k <= i && OccursAt(data, pat, i))
    ensures forall j :: k <= j && (i == -1 || j < i) ==> !OccursAt(data, pat, j)
  {
    if k + |pat| > |data| then -1
    else if data[k..k + |pat|] == pat then k
    else IndexFrom(data, pat, k + 1)
  }

  /** `bytes.Index(data, Separator)`. */
  function IndexOfSeparator(data: seq<byte>): (i: int)
    ensures i == -1 <==> !Contains(data, Separator)
    ensures i != -1 ==> FirstSeparatorAt(data, i)
  {
    IndexFrom(data, Separator, 0)
  }

  /** The three results of a `bufio.SplitFunc`; a nil token is `None`. */
  datatype SplitResult = SplitResult(advance: nat, token: Option<seq<byte>>)

  /** `scanYamlSpecs`: the split function handed to the scanner. */
  function ScanYamlSpecs(data: seq<byte>, atEOF: bool): (r: SplitResult)
    // end of input with nothing left: no token, the scan ends
    ensures atEOF && |data| == 0 ==> r == SplitResult(0, None)
    // a separator: the token is what precedes its first occurrence, and it is skipped
    ensures forall i :: FirstSeparatorAt(data, i) ==> r == SplitResult(i + |Separator|, Some(data[..i]))
    // no separator: the rest at end of input, otherwise a request for more data
    ensures !Contains(data, Separator) && atEOF && |data| > 0 ==> r == SplitResult(|data|, Some(data))
    ensures !Contains(data, Separator) && !atEOF ==> r == SplitResult(0, None)
    // hence no token ever holds a separator, and every token makes progress
    ensures r.token.Some? ==> !Contains(r.token.value, Separator) && 0 < r.advance <= |data|
  {
    if atEOF && |data| == 0 then SplitResult(0, None)
    else
      var i := IndexOfSeparator(data);
      if i >= 0 then
        BeforeFirstIsFree(data, i);
        SplitResult(i + |Separator|, Some(data[0..i]))
      else if atEOF then SplitResult(|data|, Some(data))
      else SplitResult(0, None)
  }

  /** What one call of `Scan` finds in the unread input. */
  datatype Step = Done | Token(token: seq<byte>, advance: nat) | TooLong

  /**
   * One `Scan` of a `bufio.Scanner` over the unread input `rest`, by its net
   * effect. The scanner keeps reading into a buffer that doubles up to
   * `MaxTokenSize`, calling the split function on everything buffered with
   * `atEOF` set once the reader is exhausted; it fails with `ErrTooLong`
   * when a full buffer still yields no token. Because `ScanYamlSpecs` only
   * looks for the first separator, this is the same as one call on the
   * window of the first `min(|rest|, MaxTokenSize)` bytes, at end of input
   * exactly when the whole of `rest` fits in the window with room to spare.
   */
  function NextStep(rest: seq<byte>): (s: Step)
    ensures s.Done? <==> |rest| == 0
    ensures s.TooLong? <==> |rest| >= MaxTokenSize && !Contains(rest[..MaxTokenSize], Separator)
    ensures s.Token? ==> 0 < s.advance <= |rest| && |s.token| < MaxTokenSize
    ensures s.Token? ==> !Contains(s.token, Separator)
    ensures s.Token? ==>
              (s.advance == |s.token| + |Separator| && rest == s.token + Separator + rest[s.advance..])
              || (s.advance == |rest| && s.token == rest)
    // a token cut at a separator ends at the first one in the unread input
    ensures s.Token? && s.token != rest ==> FirstSeparatorAt(rest, |s.token|)
  {
    var atEOF := |rest| < MaxTokenSize;
    var n := if atEOF then |rest| else MaxTokenSize;
    var window := rest[..n];
    assert atEOF ==> window == rest;
    var r := ScanYamlSpecs(window, atEOF);
    if r.token.Some? then
      var i := IndexOfSeparator(window);
      if i >= 0 then
        FirstInWindowIsFirst(rest, n, i);
        Token(r.token.value, r.advance)
      else
        Token(r.token.value, r.advance)
    else if atEOF then Done
    else TooLong
  }

  /** Everything a scan of `rest` yields: its documents in order, then whether it failed. */
  datatype Scanned = Scanned(docs: seq<seq<byte>>, tooLong: bool)

  /** The documents a full scan of `rest` produces. */
  function Tokenize(rest: seq<byte>): (s: Scanned)
    decreases |rest|
    ensures forall d :: d in s.docs ==> |d| < MaxTokenSize && !Contains(d, Separator)
    ensures s.docs == [] && !s.tooLong ==> rest == []
  {
    match NextStep(rest)
    case Done => Scanned([], false)
    case TooLong => Scanned([], true)
    case Token(t, adv) =>
      var tail := Tokenize(rest[adv..]);
      Scanned([t] + tail.docs, tail.tooLong)
  }

  /** The documents glued back together with the separator. */
  function Join(docs: seq<seq<byte>>): seq<byte>
    decreases |docs|
  {
    if |docs| == 0 then []
    else if |docs| == 1 then docs[0]
    else docs[0] + Separator + Join(docs[1..])
  }

  /** Joining one more leading document puts a separator between it and the rest. */
  lemma JoinCons(t: seq<byte>, docs: seq<seq<byte>>)
    requires docs != []
    ensures Join([t] + docs) == t + Separator + Join(docs)
  {
    assert ([t] + docs)[1..] == docs;
  }

  /** Prefixing `t` and a separator keeps "`after` is `j`, maybe with one trailing separator". */
  lemma GlueAfterSeparator(t: seq<byte>, after: seq<byte>, j: seq<byte>)
    requires after == j || after == j + Separator
    ensures t + Separator + after == t + Separator + j || t + Separator + after == (t + Separator + j) + Separator
  {
    if after != j {
      calc {
        t + Separator + after;
        t + Separator + (j + Separator);
        (t + Separator + j) + Separator;
      }
    }
  }

  /** Rejoining the documents gives the input back, minus at most one trailing separator. */
  lemma {:induction false} JoinReproducesInput(rest: seq<byte>)
    requires !Tokenize(rest).tooLong
    ensures rest == Join(Tokenize(rest).docs) || rest == Join(Tokenize(rest).docs) + Separator
    decreases |rest|
  {
    match NextStep(rest)
    case Done =>
    case TooLong =>
    case Token(t, adv) =>
      var after := rest[adv..];
      var tail := Tokenize(after);
      JoinReproducesInput(after);
      assert Tokenize(rest).docs == [t] + tail.docs;
      if tail.docs == [] {
        assert Join([t]) == t;
      } else {
        JoinCons(t, tail.docs);
        GlueAfterSeparator(t, after, Join(tail.docs));
      }
  }

  /** A manifest shorter than the cap never makes the scanner fail. */
  lemma {:induction false} ShortInputNeverTooLong(rest: seq<byte>)
    requires |rest| < MaxTokenSize
    ensures !Tokenize(rest).tooLong
    decreases |rest|
  {
    match NextStep(rest)
    case Done =>
    case TooLong =>
    case Token(t, adv) =>
      ShortInputNeverTooLong(rest[adv..]);
  }

  /**
   * `bufio.Scanner` with `scanYamlSpecs` as its split function. `Upcoming()`
   * is what the remaining calls of `Scan` will yield.
   */
  class Scanner {
    var rest: seq<byte>
    var token: seq<byte>
    var stopped: bool
    var errTooLong: bool

    ghost function Upcoming(): Scanned
      reads this
    {
      if stopped then Scanned([], errTooLong) else Tokenize(rest)
    }

    /** `bufio.NewScanner(bytes.NewReader(input))`. */
    constructor (input: seq<byte>)
      ensures Upcoming() == Tokenize(input)
    {
      rest := input;
      token := [];
      stopped := false;
      errTooLong := false;
    }

    /** Advances to the next document; false once the input is exhausted or a document is too long. */
    method Scan() returns (more: bool)
      modifies this
      ensures more <==> old(Upcoming()).docs != []
      ensures more ==> token == old(Upcoming()).docs[0]
      ensures more ==> Upcoming() == Scanned(old(Upcoming()).docs[1..], old(Upcoming()).tooLong)
      ensures !more ==> Upcoming() == old(Upcoming()) && errTooLong == Upcoming().tooLong
    {
      if stopped {
        return false;
      }
      match NextStep(rest)
      case Done =>
        stopped, errTooLong := true, false;
        more := false;
      case TooLong =>
        stopped, errTooLong := true, true;
        more := false;
      case Token(t, adv) =>
        token := t;
        rest := rest[adv..];
        more := true;
    }
  }
}
