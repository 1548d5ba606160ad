/**
 * The API configuration helpers: the proxy prefix for endpoints and the
 * substitution of `:name` placeholders in endpoint paths. Placeholders are
 * replaced with `String.prototype.replace` and a string pattern, so only
 * the first occurrence is replaced, matching is by plain substring, and
 * the replacement text goes through the `$` substitution patterns.
 */
module ApiConfig {
  import opened Strings

  const BasePath := "/api"
  const Timeout := 50000
  const ArticlesList := "/articles"
  const ArticleDetail := "/articles/:id"
  const CategoryDetail := "/categories/:id"

  /** `getApiUrl`: the endpoint under the proxy prefix, recoverable by dropping the prefix. */
  function GetApiUrl(endpoint: string): (url: string)
    ensures |url| == |BasePath| + |endpoint|
    ensures url[..|BasePath|] == BasePath && url[|BasePath|..] == endpoint
  {
    BasePath + endpoint
  }

  /** A parameter value: a string or a (whole) number. */
  datatype Value = VStr(s: string) | VNum(n: int)

  /** `String(value)`. */
  function ValueString(v: Value): (s: string)
    ensures v.VStr? ==> s == v.s
    ensures v.VNum? ==> |s| > 0 && forall i :: 0 <= i < |s| ==> s[i] == '-' || IsDigit(s[i])
  {
    match v
    case VStr(s) => s
    case VNum(n) => IntToString(n)
  }

  ghost predicate OccursAt(s: string, p: string, j: int)
  {
    0 <= j && j + |p| <= |s| && s[j..j + |p|] == p
  }

  /** The first position at or after `from` where `p` occurs in `s`, or -1. */
  function IndexOfFrom(s: string, p: string, from: nat): (k: int)
    ensures k == -1 || (from <= k && OccursAt(s, p, k))
    ensures forall j :: from <= j && (k == -1 || j < k) ==> !OccursAt(s, p, j)
    decreases |s| - from
  {
    if from + |p| > |s| then -1
    else if s[from..from + |p|] == p then from
    else IndexOfFrom(s, p, from + 1)
  }

  /** `s.indexOf(p)`. */
  function IndexOf(s: string, p: string): (k: int)
    ensures k == -1 <==> forall j :: !OccursAt(s, p, j)
    ensures k != -1 ==> OccursAt(s, p, k) && forall j :: j < k ==> !OccursAt(s, p, j)
  {
    IndexOfFrom(s, p, 0)
  }

  /**
   * The replacement text after `$` substitution (with no capture groups):
   * `$$` is a dollar, `$&` the match, `` $` `` the text before it, `$'` the
   * text after it; any other `$` stands for itself. A replacement without `$`
   * is therefore inserted as it is.
   */
  function Substitution(matched: string, before: string, after: string, replacement: string): (r: string)
    ensures '$' !in replacement ==> r == replacement
  {
    if |replacement| == 0 then ""
    else if replacement[0] == '$' && |replacement| >= 2 then
      var rest := Substitution(matched, before, after, replacement[2..]);
      match replacement[1]
      case '$' => "$" + rest
      case '&' => matched + rest
      case '`' => before + rest
      case '\'' => after + rest
      case _ => "$" + Substitution(matched, before, after, replacement[1..])
    else
      assert replacement == [replacement[0]] + replacement[1..];
      [replacement[0]] + Substitution(matched, before, after, replacement[1..])
  }

  /**
   * `s.replace(pattern, replacement)` with a string pattern: the first
   * occurrence of `pattern`, if any, gives way to the substituted
   * replacement; everything before and after it is kept.
   */
  function Replace(s: string, pattern: string, replacement: string): (r: string)
    ensures IndexOf(s, pattern) == -1 ==> r == s
    ensures var k := IndexOf(s, pattern);
      k != -1 ==>
        && r == s[..k] + Substitution(pattern, s[..k], s[k + |pattern|..], replacement) + s[k + |pattern|..]
        && r[..k] == s[..k]
        && r[|r| - (|s| - k - |pattern|)..] == s[k + |pattern|..]
  {
    var k := IndexOf(s, pattern);
    if k == -1 then s
    else
      var before := s[..k];
      var after := s[k + |pattern|..];
      var r := before + Substitution(pattern, before, after, replacement) + after;
      assert r[..k] == before;
      assert r[|r| - |after|..] == after;
      r
  }

  /** One step of `replaceUrlParams`: the first `:key` gives way to the value. */
  function ReplaceParam(url: string, key: string, value: Value): string
  {
    Replace(url, ":" + key, ValueString(value))
  }

  /** `replaceUrlParams` as a fold: each entry in turn replaces the first occurrence of its placeholder. */
  function ReplaceParams(url: string, params: seq<(string, Value)>): (r: string)
    ensures (forall p :: p in params ==> forall j :: !OccursAt(url, ":" + p.0, j)) ==> r == url
  {
    if |params| == 0 then url
    else
      var last := params[|params| - 1];
      ReplaceParam(ReplaceParams(url, params[..|params| - 1]), last.0, last.1)
  }

  /** `replaceUrlParams`: the entries are applied in order, the result of each feeding the next. */
  method ReplaceUrlParams(url: string, params: seq<(string, Value)>) returns (result: string)
    ensures result == ReplaceParams(url, params)
  {
    result := url;
    for i := 0 to |params|
      invariant result == ReplaceParams(url, params[..i])
    {
      var (key, value) := params[i];
      assert params[..i + 1][..i] == params[..i];
      result := Replace(result, ":" + key, ValueString(value));
    }
    assert params[..|params|] == params;
  }

  /** A single entry is a single replacement. */
  lemma SingleParam(url: string, key: string, value: Value)
    ensures ReplaceParams(url, [(key, value)]) == ReplaceParam(url, key, value)
  {
    assert [(key, value)][..0] == [];
  }

  /** With no parameters the URL comes back unchanged. */
  lemma NoParams(url: string)
    ensures ReplaceParams(url, []) == url
  {
  }

  /** A URL without a key's placeholder comes back unchanged from that key. */
  lemma AbsentPlaceholder(url: string, key: string, value: Value)
    requires forall j :: !OccursAt(url, ":" + key, j)
    ensures ReplaceParam(url, key, value) == url
  {
  }

  /**
   * The first placeholder is replaced by the value's text (when it has no `$`)
   * and the rest of the URL, including any later copy of the placeholder, survives.
   */
  lemma FirstPlaceholderOnly(url: string, key: string, value: Value, k: int)
    requires OccursAt(url, ":" + key, k) && forall j :: j < k ==> !OccursAt(url, ":" + key, j)
    requires '$' !in ValueString(value)
    ensures ReplaceParam(url, key, value) == url[..k] + ValueString(value) + url[k + |key| + 1..]
  {
    var p := ":" + key;
    assert |p| == |key| + 1;
    FirstPlaceholder(url, key, value, k);
  }

  /** The first placeholder gives way to the substituted value; the text around it is kept. */
  lemma FirstPlaceholder(url: string, key: string, value: Value, k: int)
    requires OccursAt(url, ":" + key, k) && forall j :: j < k ==> !OccursAt(url, ":" + key, j)
    ensures var p := ":" + key;
      ReplaceParam(url, key, value) == url[..k] + Substitution(p, url[..k], url[k + |p|..], ValueString(value)) + url[k + |p|..]
  {
    var p := ":" + key;
    var i := IndexOf(url, p);
    assert i != -1;
    assert !(i < k);
    assert !(k < i);
    assert ReplaceParam(url, key, value) == Replace(url, p, ValueString(value));
  }

  /** A number never contains `$`. */
  lemma NumberHasNoDollar(n: int)
    ensures '$' !in IntToString(n)
  {
    var s := IntToString(n);
    assert forall i :: 0 <= i < |s| ==> s[i] != '$';
  }

  /** A placeholder cannot occur before the first colon of the URL. */
  lemma NoPlaceholderBeforeColon(url: string, key: string, k: int)
    requires forall j :: 0 <= j < k && j < |url| ==> url[j] != ':'
    ensures forall j :: j < k ==> !OccursAt(url, ":" + key, j)
  {
    forall j | j < k
      ensures !OccursAt(url, ":" + key, j)
    {
      if 0 <= j && j + |key| + 1 <= |url| {
        assert url[j..j + |key| + 1][0] == url[j] != (":" + key)[0];
      }
    }
  }

  /**
   * A placeholder whose prefix has no colon is the first one: it gives way to
   * the value's text (when it has no `$`), and whatever follows survives.
   */
  lemma PlaceholderAfterColonFreePrefix(prefix: string, key: string, rest: string, value: Value)
    requires ':' !in prefix && '$' !in ValueString(value)
    ensures ReplaceParams(prefix + ":" + key + rest, [(key, value)]) == prefix + ValueString(value) + rest
  {
    var url := prefix + ":" + key + rest;
    var k := |prefix|;
    assert url[k..k + |key| + 1] == ":" + key;
    NoPlaceholderBeforeColon(url, key, k);
    FirstPlaceholderOnly(url, key, value, k);
    assert url[..k] == prefix && url[k + |key| + 1..] == rest;
    SingleParam(url, key, value);
  }

  /** In `/articles/:id` the placeholder `:id` first occurs at position 10. */
  lemma ArticleDetailPlaceholder()
    ensures OccursAt(ArticleDetail, ":id", 10)
    ensures forall j :: j < 10 ==> !OccursAt(ArticleDetail, ":id", j)
  {
    assert ArticleDetail[10..13] == ":id" == ":" + "id";
    NoPlaceholderBeforeColon(ArticleDetail, "id", 10);
  }

  /** `/articles/:id` with a numeric id is `/articles/` followed by the id in decimal. */
  lemma ArticleDetailUrl(n: int)
    ensures ReplaceParams(ArticleDetail, [("id", VNum(n))]) == "/articles/" + IntToString(n)
  {
    ArticleDetailPlaceholder();
    NumberHasNoDollar(n);
    FirstPlaceholderOnly(ArticleDetail, "id", VNum(n), 10);
    assert ArticleDetail[..10] == "/articles/" && ArticleDetail[13..] == "";
    SingleParam(ArticleDetail, "id", VNum(n));
  }

  /** `$&` stands for the matched text. */
  lemma SubstituteMatch(matched: string, before: string, after: string)
    ensures Substitution(matched, before, after, "$&") == matched
  {
    var rep := "$&";
    assert rep[0] == '$' && rep[1] == '&' && rep[2..] == "";
  }

  /** A string value `$&` reinserts the matched placeholder, so `/articles/:id` comes back unchanged. */
  lemma DollarPatternInValue()
    ensures ReplaceParams(ArticleDetail, [("id", VStr("$&"))]) == ArticleDetail
  {
    var p := ":id";
    var before, after := ArticleDetail[..10], ArticleDetail[13..];
    ArticleDetailPlaceholder();
    FirstPlaceholder(ArticleDetail, "id", VStr("$&"), 10);
    SubstituteMatch(p, before, after);
    assert ArticleDetail == before + p + after;
    SingleParam(ArticleDetail, "id", VStr("$&"));
  }

  /** Matching is by substring: `:id` also matches the start of `:idx`. */
  lemma PlaceholderPrefixMatches(n: int)
    ensures ReplaceParams("/items/:idx", [("id", VNum(n))]) == "/items/" + IntToString(n) + "x"
  {
    NumberHasNoDollar(n);
    assert "/items/:idx" == "/items/" + ":" + "id" + "x";
    PlaceholderAfterColonFreePrefix("/items/", "id", "x", VNum(n));
  }

  /** A second copy of a placeholder survives: only the first is replaced. */
  lemma SecondPlaceholderSurvives(n: int)
    ensures ReplaceParams("/a/:id/b/:id", [("id", VNum(n))]) == "/a/" + IntToString(n) + "/b/:id"
  {
    NumberHasNoDollar(n);
    assert "/a/:id/b/:id" == "/a/" + ":" + "id" + "/b/:id";
    PlaceholderAfterColonFreePrefix("/a/", "id", "/b/:id", VNum(n));
  }
}
