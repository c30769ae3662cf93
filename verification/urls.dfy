/**
 * A stand-in for the WHATWG `URL` class the builder uses: whether an input
 * parses as an absolute URL, the `searchParams` list it appends to in place,
 * and the serialisation `url.toString()`. Only what the builder depends on
 * is kept: an absolute URL starts with a scheme and a colon, parsing keeps
 * the input as it is, and appended pairs are serialised in order after `?`.
 */
module Urls {

  predicate IsAlpha(c: char)
  {
    'a' <= c <= 'z' || 'A' <= c <= 'Z'
  }

  /** A character that may follow the first letter of a scheme. */
  predicate IsSchemeChar(c: char)
  {
    IsAlpha(c) || '0' <= c <= '9' || c == '+' || c == '-' || c == '.'
  }

  /** From index `i` on, scheme characters run up to a colon. */
  predicate SchemeRest(s: string, i: nat)
    decreases |s| - i
  {
    i < |s| && (s[i] == ':' || (IsSchemeChar(s[i]) && SchemeRest(s, i + 1)))
  }

  /** `new URL(s)` succeeds: `s` begins with a scheme (a letter, then scheme characters) and a colon. */
  predicate ParsesAsUrl(s: string)
  {
    |s| > 0 && IsAlpha(s[0]) && SchemeRest(s, 1)
  }

  /** The scan in SchemeRest finds exactly a colon preceded by scheme characters only. */
  lemma {:induction false} SchemeRestMeans(s: string, i: nat)
    requires i <= |s|
    ensures SchemeRest(s, i) <==>
      exists k :: i <= k < |s| && s[k] == ':' && forall j :: i <= j < k ==> IsSchemeChar(s[j])
    decreases |s| - i
  {
    if i < |s| {
      SchemeRestMeans(s, i + 1);
      if SchemeRest(s, i) && s[i] != ':' {
        var k :| i + 1 <= k < |s| && s[k] == ':' && forall j :: i + 1 <= j < k ==> IsSchemeChar(s[j]);
        assert forall j :: i <= j < k ==> IsSchemeChar(s[j]);
      }
      if !SchemeRest(s, i) && s[i] != ':' && IsSchemeChar(s[i]) {
        forall k | i <= k < |s| && s[k] == ':'
          ensures exists j :: i <= j < k && !IsSchemeChar(s[j])
        {
          assert k != i;
          assert !forall j :: i + 1 <= j < k ==> IsSchemeChar(s[j]);
        }
      }
    }
  }

  /** A URL whose search parameters are updated in place. */
  class Url {
    /** The serialisation of the parsed input. */
    const href: string
    /** `url.searchParams`, in the order the pairs were appended. */
    var searchParams: seq<(string, string)>

    /** `new URL(input)` on an input that parses. */
    constructor (input: string)
      requires ParsesAsUrl(input)
      ensures href == input && searchParams == []
    {
      href := input;
      searchParams := [];
    }

    /** `url.searchParams.append(key, value)`: adds a pair, never replaces one. */
    method Append(key: string, value: string)
      modifies this
      ensures searchParams == old(searchParams) + [(key, value)]
    {
      searchParams := searchParams + [(key, value)];
    }

    /** `url.toString()`. */
    function ToString(): string
      reads this
    {
      Serialize(href, searchParams)
    }
  }

  /** One pair of a query string. */
  function Pair(p: (string, string)): string
  {
    p.0 + "=" + p.1
  }

  /** The pairs of a query string, separated by `&` (percent-encoding is not modelled). */
  function QueryString(pairs: seq<(string, string)>): string
  {
    if pairs == [] then ""
    else if |pairs| == 1 then Pair(pairs[0])
    else Pair(pairs[0]) + "&" + QueryString(pairs[1..])
  }

  /** A URL with its search parameters: no `?` at all while the list is empty. */
  function Serialize(href: string, pairs: seq<(string, string)>): string
  {
    if pairs == [] then href else href + "?" + QueryString(pairs)
  }

  /** Appending a pair adds it after the existing ones. */
  lemma {:induction false} QueryStringAppend(pairs: seq<(string, string)>, p: (string, string))
    requires pairs != []
    ensures QueryString(pairs + [p]) == QueryString(pairs) + "&" + Pair(p)
  {
    if |pairs| > 1 {
      QueryStringAppend(pairs[1..], p);
      assert (pairs + [p])[1..] == pairs[1..] + [p];
    }
  }

  /**
   * Appending to the search parameters of a serialised URL extends its
   * text, opening the query with `?` or continuing it with `&`; an earlier
   * pair with the same key stays where it is.
   */
  lemma SerializeAppend(href: string, pairs: seq<(string, string)>, p: (string, string))
    ensures Serialize(href, pairs + [p]) == Serialize(href, pairs) + (if pairs == [] then "?" else "&") + Pair(p)
  {
    if pairs != [] {
      QueryStringAppend(pairs, p);
    }
  }
}
