/** The anchored, case-insensitive, non-global `String.replace` that the detail
    panel applies to a signal's texts to drop a leading field label, such as
    `/^(Observation:?\s*|...)/i`. Each alternative is a literal label, an
    optional colon and a run of whitespace; the first alternative that matches
    at the start of the text is removed, once, and nothing else changes. */
module Labels {

  import opened Types

  /** ASCII case folding. JavaScript's non-Unicode `/i` never folds a
      non-ASCII character onto an ASCII one, and every label is ASCII, so this
      is exactly the equivalence the regular expression uses. */
  function Lower(c: char): char {
    if 'A' <= c <= 'Z' then (c as int + 32) as char else c
  }

  /** JavaScript's `\s`: the WhiteSpace and LineTerminator characters,
      including no-break space (U+00A0) and the byte-order mark (U+FEFF). */
  predicate IsJsSpace(c: char) {
    var n := c as int;
    || 0x09 <= n <= 0x0D        // tab, line feed, vertical tab, form feed, carriage return
    || n == 0x20 || n == 0xA0 || n == 0x1680
    || 0x2000 <= n <= 0x200A
    || n == 0x2028 || n == 0x2029 || n == 0x202F || n == 0x205F
    || n == 0x3000 || n == 0xFEFF
  }

  /** `s` starts with `p`, ignoring ASCII case. */
  predicate StartsWithCi(s: string, p: string) {
    |p| <= |s| && forall i :: 0 <= i < |p| ==> Lower(s[i]) == Lower(p[i])
  }

  predicate AllSpace(t: string) {
    forall i :: 0 <= i < |t| ==> IsJsSpace(t[i])
  }

  /** What `:?\s*` can match: an optional colon followed by whitespace. */
  predicate IsSeparator(t: string) {
    AllSpace(t) || (t != [] && t[0] == ':' && AllSpace(t[1..]))
  }

  /** Length of the longest run of whitespace at the start of `s` (`\s*`). */
  function SpaceRun(s: string): (n: nat)
    ensures n <= |s| && AllSpace(s[..n])
    ensures n < |s| ==> !IsJsSpace(s[n])
  {
    if s == [] || !IsJsSpace(s[0]) then 0
    else
      var m := SpaceRun(s[1..]);
      assert s[..1 + m] == [s[0]] + s[1..][..m];
      1 + m
  }

  /** Where the greedy `:?\s*` that starts at `k` ends. */
  function SeparatorEnd(s: string, k: nat): (n: nat)
    requires k <= |s|
    ensures k <= n <= |s| && IsSeparator(s[k..n])
    ensures n < |s| ==> !IsJsSpace(s[n]) && (n == k ==> s[n] != ':')
  {
    var c := if k < |s| && s[k] == ':' then k + 1 else k;
    var w := SpaceRun(s[c..]);
    assert s[c..][..w] == s[c..c + w];
    assert c == k + 1 ==> s[k..c + w][1..] == s[c..c + w];
    c + w
  }

  /** Where the match of the alternation `labels[0]:?\s*|labels[1]:?\s*|...`
      anchored at the start of `s` ends, or None when no alternative matches.
      Alternatives are tried in order. */
  function MatchEnd(labels: seq<string>, s: string): (m: Option<nat>)
    ensures m.Some? ==> m.value <= |s|
    ensures m.None? <==> forall j :: 0 <= j < |labels| ==> !StartsWithCi(s, labels[j])
  {
    if labels == [] then None
    else if StartsWithCi(s, labels[0]) then Some(SeparatorEnd(s, |labels[0]|))
    else MatchEnd(labels[1..], s)
  }

  /** `s.replace(/^(labels[0]:?\s*|labels[1]:?\s*|...)/i, '')`. */
  function StripLabel(labels: seq<string>, s: string): (r: string)
    ensures |r| <= |s| && r == s[|s| - |r|..]
  {
    match MatchEnd(labels, s)
    case None => s
    case Some(n) => s[n..]
  }

  /** Declarative meaning of removing one label: `s` starts with `prefix`
      (ignoring case), and `r` is what follows that label and the LONGEST
      separator after it. The separator is longest because both `:?` and
      `\s*` are greedy: the text left over does not begin with whitespace,
      nor with a colon that could have followed the label directly. */
  predicate RemovesLabel(prefix: string, s: string, r: string) {
    StartsWithCi(s, prefix) && |prefix| + |r| <= |s| &&
    var n := |s| - |r|;
    && r == s[n..]
    && IsSeparator(s[|prefix|..n])
    && (n < |s| ==> !IsJsSpace(s[n]) && (n == |prefix| ==> s[n] != ':'))
  }

  /** At most one text can be left over once a given prefix is removed. */
  lemma RemovesLabelUnique(prefix: string, s: string, r1: string, r2: string)
    requires RemovesLabel(prefix, s, r1) && RemovesLabel(prefix, s, r2)
    ensures r1 == r2
  {
    var n1, n2 := |s| - |r1|, |s| - |r2|;
    if n1 < n2 {
      SeparatorHasNoStop(s, |prefix|, n2, n1);
    } else if n2 < n1 {
      SeparatorHasNoStop(s, |prefix|, n1, n2);
    }
  }

  /** Inside a separator `s[k..n]` there is no position `j` where a greedy
      `:?\s*` started at `k` could stop. */
  lemma SeparatorHasNoStop(s: string, k: nat, n: nat, j: nat)
    requires k <= j < n <= |s| && IsSeparator(s[k..n])
    ensures IsJsSpace(s[j]) || (j == k && s[j] == ':')
  {
    assert s[j] == s[k..n][j - k];
    if !AllSpace(s[k..n]) && j > k {
      assert s[j] == s[k..n][1..][j - k - 1];
    }
  }

  /** The alternation's match ends after the separator that follows the
      first label that matches. */
  lemma {:induction false} MatchEndAtFirstMatch(labels: seq<string>, s: string, i: nat)
    requires i < |labels| && StartsWithCi(s, labels[i])
    requires forall j :: 0 <= j < i ==> !StartsWithCi(s, labels[j])
    ensures |labels[i]| <= |s| && MatchEnd(labels, s) == Some(SeparatorEnd(s, |labels[i]|))
  {
    if i > 0 {
      assert !StartsWithCi(s, labels[0]);
      assert labels[1..][i - 1] == labels[i];
      forall j | 0 <= j < i - 1 ensures !StartsWithCi(s, labels[1..][j]) {
        assert labels[1..][j] == labels[j + 1];
      }
      MatchEndAtFirstMatch(labels[1..], s, i - 1);
    }
  }

  /** The first alternative that matches is the one removed, as RemovesLabel
      describes. */
  lemma StripLabelRemovesFirstMatch(labels: seq<string>, s: string, i: nat)
    requires i < |labels| && StartsWithCi(s, labels[i])
    requires forall j :: 0 <= j < i ==> !StartsWithCi(s, labels[j])
    ensures RemovesLabel(labels[i], s, StripLabel(labels, s))
  {
    MatchEndAtFirstMatch(labels, s, i);
    var n := SeparatorEnd(s, |labels[i]|);
    assert StripLabel(labels, s) == s[n..];
    assert |s| - |s[n..]| == n;
  }

  /** Text that no alternative matches is displayed unchanged. */
  lemma {:induction false} StripLabelNoMatch(labels: seq<string>, s: string)
    requires forall j :: 0 <= j < |labels| ==> !StartsWithCi(s, labels[j])
    ensures StripLabel(labels, s) == s
  {
    if labels != [] {
      assert !StartsWithCi(s, labels[0]);
      forall j | 0 <= j < |labels| - 1 ensures !StartsWithCi(s, labels[1..][j]) {
        assert labels[1..][j] == labels[j + 1];
      }
      StripLabelNoMatch(labels[1..], s);
    }
  }
}
