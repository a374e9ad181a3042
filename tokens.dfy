/**
 * Token classes and the `_` tokenizer behind the collection-id grammars.
 *
 * Every capture group of `mfc_id`, `tac_id` and `old_tac_id` is one of the
 * classes `[A-Z]+`, `[A-Z0-9]+` or `[0-9]{3}`, and the groups are separated
 * by a literal `_`.  None of the classes contains `_`, so an anchored match
 * of such a grammar binds exactly the `_`-separated pieces of the input, one
 * group per piece.  This module gives the split, its inverse, and the facts
 * that make the two agree.
 */
module Tokens {

  /** The separator between grammar slots. */
  const Delimiter: char := '_'

  predicate IsUpperChar(c: char) { 'A' <= c <= 'Z' }

  predicate IsDigitChar(c: char) { '0' <= c <= '9' }

  /** The regex class `[A-Z]+`. */
  predicate IsUpper(s: string) {
    |s| > 0 && forall i :: 0 <= i < |s| ==> IsUpperChar(s[i])
  }

  /** The regex class `[A-Z0-9]+`. */
  predicate IsUpperAlnum(s: string) {
    |s| > 0 && forall i :: 0 <= i < |s| ==> IsUpperChar(s[i]) || IsDigitChar(s[i])
  }

  /** The regex class `[0-9]{3}`. */
  predicate IsThreeDigits(s: string) {
    |s| == 3 && forall i :: 0 <= i < |s| ==> IsDigitChar(s[i])
  }

  /** A token that a regex class can bind: it holds no separator. */
  predicate NoDelimiter(s: string) {
    Delimiter !in s
  }

  predicate AllTokens(ts: seq<string>) {
    forall i :: 0 <= i < |ts| ==> NoDelimiter(ts[i])
  }

  /** Glues the tokens back together with one separator between neighbours. */
  function Join(ts: seq<string>): string
    requires |ts| >= 1
  {
    if |ts| == 1 then ts[0] else ts[0] + [Delimiter] + Join(ts[1..])
  }

  /** Joining a token in front of a non-empty list puts one separator between them. */
  lemma JoinCons(t: string, ts: seq<string>)
    requires |ts| >= 1
    ensures Join([t] + ts) == t + [Delimiter] + Join(ts)
  {
    assert ([t] + ts)[1..] == ts;
  }

  /**
   * Cuts a string at every separator, keeping empty pieces (as Python's
   * `str.split("_")` does).  Gluing the pieces back gives the input.
   */
  function Split(s: string): (ts: seq<string>)
    ensures |ts| >= 1
    ensures AllTokens(ts)
    ensures Join(ts) == s
  {
    if |s| == 0 then [""]
    else
      var rest := Split(s[1..]);
      if s[0] == Delimiter then
        [""] + rest
      else
        var ts := [[s[0]] + rest[0]] + rest[1..];
        assert |rest| > 1 ==> Join(ts) == [s[0]] + (rest[0] + [Delimiter] + Join(rest[1..]));
        ts
  }

  /** Each of the three token classes excludes the separator. */
  lemma ClassesExcludeDelimiter(s: string)
    ensures IsUpper(s) ==> NoDelimiter(s)
    ensures IsUpperAlnum(s) ==> NoDelimiter(s)
    ensures IsThreeDigits(s) ==> NoDelimiter(s)
  {
  }

  /** A separator-free piece followed by a separator is split off as one token. */
  lemma {:induction false} SplitCons(t: string, r: string)
    requires NoDelimiter(t)
    ensures Split(t + [Delimiter] + r) == [t] + Split(r)
  {
    if t == [] {
      assert t + [Delimiter] + r == [Delimiter] + r;
    } else {
      assert (t + [Delimiter] + r)[1..] == t[1..] + [Delimiter] + r;
      SplitCons(t[1..], r);
      assert [t[0]] + t[1..] == t;
    }
  }

  /** A separator-free string is a single token. */
  lemma {:induction false} SplitSingle(t: string)
    requires NoDelimiter(t)
    ensures Split(t) == [t]
  {
    if t != [] {
      SplitSingle(t[1..]);
      assert [t[0]] + t[1..] == t;
    }
  }

  /**
   * Splitting is the inverse of joining separator-free tokens: the pieces of
   * a joined string are exactly the tokens it was joined from.
   */
  lemma {:induction false} SplitJoin(ts: seq<string>)
    requires |ts| >= 1 && AllTokens(ts)
    ensures Split(Join(ts)) == ts
  {
    if |ts| == 1 {
      SplitSingle(ts[0]);
    } else {
      SplitCons(ts[0], Join(ts[1..]));
      SplitJoin(ts[1..]);
      assert [ts[0]] + ts[1..] == ts;
    }
  }

  /** Two joins of separator-free tokens are equal only if the tokens are. */
  lemma JoinInjective(ts: seq<string>, us: seq<string>)
    requires |ts| >= 1 && AllTokens(ts)
    requires |us| >= 1 && AllTokens(us)
    requires Join(ts) == Join(us)
    ensures ts == us
  {
    SplitJoin(ts);
    SplitJoin(us);
  }
}
