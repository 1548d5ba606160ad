/**
 * The height cache of the dynamic virtual scroller: a plain JavaScript object
 * keyed by item key. A JavaScript object stores every property under a string
 * NAME, so a numeric key `5` is stored (and looked up) as the name "5"; the
 * pruning pass, however, compares those names against the raw keys.
 */
module HeightCache {
  import opened Strings

  /** An item key as `getItemKey` returns it: `string | number`. */
  datatype Key = NumKey(n: int) | StrKey(s: string)

  /** The heights, by property name. */
  type Cache = map<string, int>

  /**
   * The property name JavaScript stores a key under: a string is its own
   * name, a number is stored under its decimal text.
   */
  function PropertyName(k: Key): (name: string)
    ensures k.StrKey? ==> name == k.s
    ensures k.NumKey? ==> |name| > 0 && forall i :: 0 <= i < |name| ==> name[i] == '-' || IsDigit(name[i])
  {
    match k
    case NumKey(n) => IntToString(n)
    case StrKey(s) => s
  }

  /** Distinct numeric keys are stored under distinct names. */
  lemma NumericNamesDistinct(a: int, b: int)
    requires a != b
    ensures PropertyName(NumKey(a)) != PropertyName(NumKey(b))
  {
    IntToStringInjective(a, b);
  }

  /**
   * `cache[name] || estimated`: an absent entry AND a cached height of 0 both
   * fall back to the estimate, because 0 is falsy.
   */
  function HeightOr(cache: Cache, name: string, estimated: int): (h: int)
    ensures name in cache && cache[name] != 0 ==> h == cache[name]
    ensures name !in cache || cache[name] == 0 ==> h == estimated
  {
    if name in cache && cache[name] != 0 then cache[name] else estimated
  }

  /**
   * The clean-up run whenever the items change: each cached NAME is kept only
   * if the set of valid keys `has` it; `Set.prototype.has` does no coercion, so
   * a name can only match a string key.
   */
  function Prune(cache: Cache, validKeys: set<Key>): (r: Cache)
    ensures forall name :: name in r <==> name in cache && StrKey(name) in validKeys
    ensures forall name :: name in r ==> r[name] == cache[name]
  {
    map name | name in cache && StrKey(name) in validKeys :: cache[name]
  }

  /** Pruning never adds or changes an entry; it only forgets. */
  lemma PruneShrinks(cache: Cache, validKeys: set<Key>)
    ensures Prune(cache, validKeys).Keys <= cache.Keys
    ensures |Prune(cache, validKeys)| <= |cache|
  {
    var r := Prune(cache, validKeys);
    assert r.Keys <= cache.Keys;
    SubsetCardinality(r.Keys, cache.Keys);
  }

  lemma SubsetCardinality<X>(a: set<X>, b: set<X>)
    requires a <= b
    ensures |a| <= |b|
  {
    if a != {} {
      var x :| x in a;
      SubsetCardinality(a - {x}, b - {x});
    }
  }

  /**
   * With numeric keys (the container's `item.id`), no cached name survives a
   * prune: the whole cache is dropped on every change of the items.
   */
  lemma PruneWithNumericKeysDropsAll(cache: Cache, validKeys: set<Key>)
    requires forall k :: k in validKeys ==> k.NumKey?
    ensures Prune(cache, validKeys) == map[]
  {
    var r := Prune(cache, validKeys);
    forall name | name in cache ensures name !in r {
      assert !StrKey(name).NumKey?;
    }
    assert r.Keys == {};
  }

  /**
   * With string keys pruning does what it is meant to: the entry of a key that
   * is still valid survives, and the entry of a key that is gone is dropped.
   */
  lemma PruneWithStringKeys(cache: Cache, validKeys: set<Key>, k: Key)
    requires k.StrKey?
    ensures PropertyName(k) in Prune(cache, validKeys)
        <==> PropertyName(k) in cache && k in validKeys
  {
  }
}
