/** Compressed class names (src/compressClassName.js).

    A compressed class name is a token `"_" + reverse(base36(count))`, where
    `count` is the number of keys the cache already held when the key was
    first seen. The cache itself (a disk or memory store in the source) is an
    insertion-ordered key -> token table threaded through every call as a
    value; which table a call uses is chosen by the `cacheDir` option. */
module ClassNameCache {
  import opened Wrappers

  // ---------------------------------------------------------------------
  // Base-36 rendering, as Number.prototype.toString(36) does for a
  // non-negative integer: lower-case digits 0-9a-z, no leading zeros.
  // ---------------------------------------------------------------------

  predicate IsBase36Digit(c: char) {
    ('0' <= c <= '9') || ('a' <= c <= 'z')
  }

  predicate AllBase36Digits(s: string) {
    forall i :: 0 <= i < |s| ==> IsBase36Digit(s[i])
  }

  function DigitChar(d: nat): (c: char)
    requires d < 36
    ensures IsBase36Digit(c)
    ensures DigitValue(c) == d
  {
    if d < 10 then ('0' as int + d) as char else ('a' as int + d - 10) as char
  }

  function DigitValue(c: char): (d: nat)
    requires IsBase36Digit(c)
    ensures d < 36
  {
    if c <= '9' then c as int - '0' as int else c as int - 'a' as int + 10
  }

  /** `n.toString(36)`. */
  function ToBase36(n: nat): (s: string)
    ensures |s| > 0
    ensures AllBase36Digits(s)
    ensures n > 0 ==> s[0] != '0'
    decreases n
  {
    if n < 36 then [DigitChar(n)] else ToBase36(n / 36) + [DigitChar(n % 36)]
  }

  /** The value of a string of base-36 digits, most significant first. */
  function FromBase36(s: string): nat
    requires AllBase36Digits(s)
  {
    if |s| == 0 then 0 else FromBase36(s[..|s| - 1]) * 36 + DigitValue(s[|s| - 1])
  }

  lemma {:induction false} Base36RoundTrip(n: nat)
    ensures FromBase36(ToBase36(n)) == n
    decreases n
  {
    var s := ToBase36(n);
    if n < 36 {
      assert s[..|s| - 1] == [];
    } else {
      Base36RoundTrip(n / 36);
      assert s[..|s| - 1] == ToBase36(n / 36);
    }
  }

  function Reverse(s: string): (r: string)
    ensures |r| == |s|
    ensures forall i :: 0 <= i < |s| ==> r[i] == s[|s| - 1 - i]
  {
    if |s| == 0 then [] else Reverse(s[1..]) + [s[0]]
  }

  lemma ReverseInvolution(s: string)
    ensures Reverse(Reverse(s)) == s
  {
    var r := Reverse(Reverse(s));
    assert forall i :: 0 <= i < |s| ==> r[i] == s[i];
  }

  // ---------------------------------------------------------------------
  // Tokens.
  // ---------------------------------------------------------------------

  /** The token handed to a new key when the cache already holds `count` keys. */
  function Token(count: nat): string {
    "_" + Reverse(ToBase36(count))
  }

  /** The shape every compressed class name has: an underscore followed by a
      non-empty run of base-36 digits, which makes it a CSS identifier. */
  predicate IsToken(t: string) {
    |t| >= 2 && t[0] == '_' && AllBase36Digits(t[1..])
  }

  lemma TokenShape(count: nat)
    ensures IsToken(Token(count))
  {
    var t := Token(count);
    assert t[1..] == Reverse(ToBase36(count));
  }

  /** Reads a token back into the key count it was made from. */
  function TokenCount(t: string): nat
    requires IsToken(t)
  {
    var digits := Reverse(t[1..]);
    assert AllBase36Digits(digits);
    FromBase36(digits)
  }

  /** Tokens decode to the count they were built from. */
  lemma TokenRoundTrip(count: nat)
    ensures IsToken(Token(count))
    ensures TokenCount(Token(count)) == count
  {
    TokenShape(count);
    var t := Token(count);
    assert t[1..] == Reverse(ToBase36(count));
    ReverseInvolution(ToBase36(count));
    Base36RoundTrip(count);
  }

  /** Distinct key counts give distinct tokens. */
  lemma TokenInjective(a: nat, b: nat)
    ensures Token(a) == Token(b) <==> a == b
  {
    TokenRoundTrip(a);
    TokenRoundTrip(b);
  }

  lemma FirstTokens()
    ensures Token(0) == "_0" && Token(1) == "_1" && Token(2) == "_2"
    ensures Token(35) == "_z" && Token(36) == "_01" && Token(37) == "_11"
  {
    assert ToBase36(36) == ToBase36(1) + [DigitChar(0)];
    assert ToBase36(37) == ToBase36(1) + [DigitChar(1)];
  }

  // ---------------------------------------------------------------------
  // The fetch-or-assign cache.
  // ---------------------------------------------------------------------

  /** One cache: the keys in insertion order and the token of each key. */
  datatype Cache = Cache(keys: seq<string>, tokens: map<string, string>)

  const EmptyCache := Cache([], map[])

  /** The table holds each key once, and holds exactly the listed keys. */
  ghost predicate WellFormed(c: Cache) {
    && (forall i, j :: 0 <= i < j < |c.keys| ==> c.keys[i] != c.keys[j])
    && c.tokens.Keys == set i | 0 <= i < |c.keys| :: c.keys[i]
  }

  /** `cache.fetch(key, compute)`: the stored token of a known key, or else the
      token `compute(existingKeys)` recorded for the key at the end. */
  function Fetch(c: Cache, key: string, compute: seq<string> -> string): (r: (string, Cache))
    ensures key in c.tokens ==> r == (c.tokens[key], c)
    ensures key !in c.tokens ==> r.0 == compute(c.keys)
    ensures key !in c.tokens ==> r.1.keys == c.keys + [key]
    ensures r.1.tokens == c.tokens[key := r.0]
    ensures WellFormed(c) ==> WellFormed(r.1)
  {
    if key in c.tokens then (c.tokens[key], c)
    else
      var t := compute(c.keys);
      var c' := Cache(c.keys + [key], c.tokens[key := t]);
      assert WellFormed(c) ==> WellFormed(c') by {
        if WellFormed(c) {
          var ks := c'.keys;
          assert c'.tokens.Keys == (set i | 0 <= i < |c.keys| :: c.keys[i]) + {key};
          forall k | k in c'.tokens.Keys ensures k in (set i | 0 <= i < |ks| :: ks[i]) {
            if k == key { assert ks[|c.keys|] == key; }
            else { var i :| 0 <= i < |c.keys| && c.keys[i] == k; assert ks[i] == k; }
          }
        }
      }
      (t, c')
  }

  /** Fetching a key twice gives the same token, and the second fetch leaves
      the cache as the first left it, whatever the second `compute` is. */
  lemma FetchIdempotent(c: Cache, key: string, compute: seq<string> -> string, again: seq<string> -> string)
    ensures Fetch(Fetch(c, key, compute).1, key, again) == (Fetch(c, key, compute).0, Fetch(c, key, compute).1)
  {
  }

  /** The compression callback: the reversed base-36 number of existing keys. */
  function NextToken(existing: seq<string>): string {
    Token(|existing|)
  }

  /** Every key holds the token of its position: the invariant of a cache
      that only compressClassName has filled. */
  ghost predicate TokensByPosition(c: Cache) {
    && WellFormed(c)
    && forall i :: 0 <= i < |c.keys| ==> c.tokens[c.keys[i]] == Token(i)
  }

  lemma EmptyCacheByPosition()
    ensures TokensByPosition(EmptyCache)
  {
  }

  /** Compressing keeps every key on the token of its position. */
  lemma CompressKeepsPositions(c: Cache, key: string)
    requires TokensByPosition(c)
    ensures TokensByPosition(Fetch(c, key, NextToken).1)
  {
    var c' := Fetch(c, key, NextToken).1;
    if key !in c.tokens {
      forall i | 0 <= i < |c'.keys| ensures c'.tokens[c'.keys[i]] == Token(i) {
        if i < |c.keys| {
          assert c.keys[i] in c.tokens;
          assert c'.keys[i] == c.keys[i] && c.keys[i] != key;
        } else {
          assert c'.keys[i] == key;
        }
      }
    }
  }

  /** Collision freedom: in a cache filled by compression, two different keys
      never share a token. */
  lemma NoCollisions(c: Cache, k1: string, k2: string)
    requires TokensByPosition(c)
    requires k1 in c.tokens && k2 in c.tokens && k1 != k2
    ensures c.tokens[k1] != c.tokens[k2]
  {
    var i :| 0 <= i < |c.keys| && c.keys[i] == k1;
    var j :| 0 <= j < |c.keys| && c.keys[j] == k2;
    TokenInjective(i, j);
  }

  // ---------------------------------------------------------------------
  // Cache selection and the store of all caches.
  // ---------------------------------------------------------------------

  /** The namespace the source gives both of its caches. */
  const CacheName := "classnames"

  /** Which cache a call uses: the disk cache rooted at a directory, or the
      process-wide memory cache. */
  datatype CacheId = DiskCache(name: string, dir: string) | MemoryCache(name: string)

  /** The options compressClassName reads. `cacheDir` is `None` for a null or
      undefined option. */
  datatype CacheOptions = CacheOptions(cacheDir: Option<string>)

  /** JavaScript truthiness of the `cacheDir` option. */
  predicate HasCacheDir(options: CacheOptions) {
    options.cacheDir.Some? && options.cacheDir.value != ""
  }

  /** getCache(options). */
  function GetCache(options: CacheOptions): (id: CacheId)
    ensures id.name == CacheName
    ensures id.DiskCache? <==> HasCacheDir(options)
    ensures id.DiskCache? ==> Some(id.dir) == options.cacheDir
  {
    if HasCacheDir(options) then DiskCache(CacheName, options.cacheDir.value)
    else MemoryCache(CacheName)
  }

  /** Every cache there is; a cache never written reads as empty. */
  type Store = map<CacheId, Cache>

  function CacheOf(store: Store, id: CacheId): Cache {
    if id in store then store[id] else EmptyCache
  }

  /** clearCache(options): empties the selected cache and no other. */
  function ClearCache(store: Store, options: CacheOptions): (r: Store)
    ensures CacheOf(r, GetCache(options)) == EmptyCache
    ensures forall id :: id != GetCache(options) ==> CacheOf(r, id) == CacheOf(store, id)
  {
    store[GetCache(options) := EmptyCache]
  }

  /** compressClassName(className, options): the token and the updated store. */
  function CompressClassName(store: Store, className: string, options: CacheOptions): (r: (string, Store))
    ensures var c := CacheOf(store, GetCache(options));
      && (className in c.tokens ==> r.0 == c.tokens[className])
      && (className !in c.tokens ==> r.0 == "_" + Reverse(ToBase36(|c.keys|)))
    ensures forall id :: id != GetCache(options) ==> CacheOf(r.1, id) == CacheOf(store, id)
  {
    var id := GetCache(options);
    var (token, c') := Fetch(CacheOf(store, id), className, NextToken);
    (token, store[id := c'])
  }

  /** Every compressed class name is an underscore followed by base-36 digits. */
  lemma CompressedNameShape(store: Store, className: string, options: CacheOptions)
    requires TokensByPosition(CacheOf(store, GetCache(options)))
    ensures IsToken(CompressClassName(store, className, options).0)
  {
    var c := CacheOf(store, GetCache(options));
    if className in c.tokens {
      var i :| 0 <= i < |c.keys| && c.keys[i] == className;
      TokenShape(i);
    } else {
      TokenShape(|c.keys|);
    }
  }

  /** Compressing the same name twice with the same options gives the same
      token and changes nothing the second time. */
  lemma CompressIdempotent(store: Store, className: string, options: CacheOptions)
    ensures var (t1, s1) := CompressClassName(store, className, options);
      CompressClassName(s1, className, options) == (t1, s1)
  {
    var id := GetCache(options);
    var (t1, s1) := CompressClassName(store, className, options);
    assert CacheOf(s1, id) == Fetch(CacheOf(store, id), className, NextToken).1;
    assert s1[id := CacheOf(s1, id)] == s1;
  }

  /** Compressing a list of names in order, collecting their tokens. */
  function CompressAll(store: Store, names: seq<string>, options: CacheOptions): (r: (seq<string>, Store))
    ensures |r.0| == |names|
    decreases |names|
  {
    if |names| == 0 then ([], store)
    else
      var (t, s) := CompressClassName(store, names[0], options);
      var (ts, s') := CompressAll(s, names[1..], options);
      ([t] + ts, s')
  }

  /** Fetching a list of names from one cache with the compression
      callback, collecting their tokens. */
  function FetchAll(c: Cache, names: seq<string>): (r: (seq<string>, Cache))
    ensures |r.0| == |names|
    decreases |names|
  {
    if |names| == 0 then ([], c)
    else
      var (t, c1) := Fetch(c, names[0], NextToken);
      var (ts, c2) := FetchAll(c1, names[1..]);
      ([t] + ts, c2)
  }

  /** A run of compressions only ever reads and writes the selected cache. */
  lemma {:induction false} CompressAllUsesOneCache(store: Store, names: seq<string>, options: CacheOptions)
    ensures CompressAll(store, names, options).0 == FetchAll(CacheOf(store, GetCache(options)), names).0
    decreases |names|
  {
    if |names| > 0 {
      var id := GetCache(options);
      var s := CompressClassName(store, names[0], options).1;
      assert CacheOf(s, id) == Fetch(CacheOf(store, id), names[0], NextToken).1;
      CompressAllUsesOneCache(s, names[1..], options);
    }
  }

  predicate Distinct(names: seq<string>) {
    forall i, j :: 0 <= i < j < |names| ==> names[i] != names[j]
  }

  predicate AllFresh(names: seq<string>, c: Cache) {
    forall i :: 0 <= i < |names| ==> names[i] !in c.tokens
  }

  /** New distinct names fetched from a cache filled by compression receive
      the tokens of the next free positions, in order. */
  lemma {:induction false} FetchFreshNames(c: Cache, names: seq<string>)
    requires TokensByPosition(c) && Distinct(names) && AllFresh(names, c)
    ensures forall i :: 0 <= i < |names| ==> FetchAll(c, names).0[i] == Token(|c.keys| + i)
    decreases |names|
  {
    if |names| > 0 {
      var c1 := Fetch(c, names[0], NextToken).1;
      CompressKeepsPositions(c, names[0]);
      assert |c1.keys| == |c.keys| + 1;
      forall i | 0 <= i < |names[1..]| ensures names[1..][i] !in c1.tokens {
        assert names[1..][i] == names[i + 1] && names[i + 1] != names[0];
      }
      assert Distinct(names[1..]) by {
        forall i, j | 0 <= i < j < |names[1..]| ensures names[1..][i] != names[1..][j] {
          assert names[1..][i] == names[i + 1] && names[1..][j] == names[j + 1];
        }
      }
      FetchFreshNames(c1, names[1..]);
      var ts := FetchAll(c, names).0;
      assert ts == [NextToken(c.keys)] + FetchAll(c1, names[1..]).0;
    }
  }

  /** In a cache holding `n` keys, distinct new names receive `Token(n)`,
      `Token(n + 1)`, ... in the order they are first used. */
  lemma CompressFreshNames(store: Store, names: seq<string>, options: CacheOptions)
    requires TokensByPosition(CacheOf(store, GetCache(options)))
    requires forall i, j :: 0 <= i < j < |names| ==> names[i] != names[j]
    requires forall i :: 0 <= i < |names| ==> names[i] !in CacheOf(store, GetCache(options)).tokens
    ensures var n := |CacheOf(store, GetCache(options)).keys|;
      forall i :: 0 <= i < |names| ==> CompressAll(store, names, options).0[i] == Token(n + i)
  {
    CompressAllUsesOneCache(store, names, options);
    FetchFreshNames(CacheOf(store, GetCache(options)), names);
  }

  /** The names of `names` not in `seen`, each once, in the order of their
      first use. */
  function FirstUses<T(==)>(names: seq<T>, seen: seq<T>): (r: seq<T>)
    ensures forall j :: 0 <= j < |r| ==> r[j] !in seen
    decreases |names|
  {
    if |names| == 0 then []
    else if names[0] in seen then FirstUses(names[1..], seen)
    else [names[0]] + FirstUses(names[1..], seen + [names[0]])
  }

  /** The index of the first `x` in `s`, or `|s|` when there is none. */
  function Position<T(==)>(s: seq<T>, x: T): (r: nat)
    ensures r <= |s|
    ensures r < |s| ==> s[r] == x
    ensures forall j :: 0 <= j < r ==> s[j] != x
    decreases |s|
  {
    if |s| == 0 then 0 else if s[0] == x then 0 else 1 + Position(s[1..], x)
  }

  /** A run of fetches with the compression callback keeps every key on the
      token of its position. */
  lemma {:induction false} FetchAllPositions(c: Cache, names: seq<string>)
    requires TokensByPosition(c)
    ensures TokensByPosition(FetchAll(c, names).1)
    decreases |names|
  {
    if |names| > 0 {
      CompressKeepsPositions(c, names[0]);
      FetchAllPositions(Fetch(c, names[0], NextToken).1, names[1..]);
    }
  }

  /** A run of fetches appends the names the cache lacked, each once, in
      first-use order, whatever names it repeats. */
  lemma {:induction false} FetchAllKeys(c: Cache, names: seq<string>)
    requires WellFormed(c)
    ensures FetchAll(c, names).1.keys == c.keys + FirstUses(names, c.keys)
    decreases |names|
  {
    if |names| == 0 {
      assert c.keys + [] == c.keys;
    } else {
      var key := names[0];
      var c1 := Fetch(c, key, NextToken).1;
      assert FetchAll(c, names).1 == FetchAll(c1, names[1..]).1;
      FetchAllKeys(c1, names[1..]);
      assert c1.keys + FirstUses(names[1..], c1.keys) == c.keys + FirstUses(names, c.keys) by {
        assert names == [key] + names[1..];
        FirstUsesStep(key, names[1..], c.keys);
        KeyListed(c, key);
        if key !in c.tokens {
          var rest := FirstUses(names[1..], c.keys + [key]);
          assert (c.keys + [key]) + rest == c.keys + ([key] + rest);
        }
      }
    }
  }

  /** A run of fetches never changes a token already handed out. */
  lemma {:induction false} FetchAllKeepsTokens(c: Cache, names: seq<string>)
    ensures forall k :: k in c.tokens ==>
      k in FetchAll(c, names).1.tokens && FetchAll(c, names).1.tokens[k] == c.tokens[k]
    decreases |names|
  {
    if |names| > 0 {
      FetchAllKeepsTokens(Fetch(c, names[0], NextToken).1, names[1..]);
    }
  }

  /** Each fetch of a run returns the token the final cache holds for its
      name. */
  lemma {:induction false} FetchAllReturns(c: Cache, names: seq<string>)
    ensures forall i :: 0 <= i < |names| ==>
      names[i] in FetchAll(c, names).1.tokens && FetchAll(c, names).0[i] == FetchAll(c, names).1.tokens[names[i]]
    decreases |names|
  {
    if |names| > 0 {
      var (t, c1) := Fetch(c, names[0], NextToken);
      FetchAllReturns(c1, names[1..]);
      FetchAllKeepsTokens(c1, names[1..]);
      var (ts1, c2) := FetchAll(c1, names[1..]);
      assert FetchAll(c, names) == ([t] + ts1, c2);
      assert names[0] in c1.tokens && c1.tokens[names[0]] == t;
      forall i | 1 <= i < |names|
        ensures names[i] in c2.tokens && ([t] + ts1)[i] == c2.tokens[names[i]]
      {
        assert names[i] == names[1..][i - 1];
      }
    }
  }

  /** In a well-formed cache a key has a token exactly when it is listed. */
  lemma KeyListed(c: Cache, key: string)
    requires WellFormed(c)
    ensures key in c.tokens <==> key in c.keys
  {
    if key in c.tokens {
      var i :| 0 <= i < |c.keys| && c.keys[i] == key;
    }
  }

  /** In a cache that keeps every key on the token of its position, a key's
      token names the position of its first listing. */
  lemma PositionOfKey(c: Cache, x: string)
    requires TokensByPosition(c) && x in c.tokens
    ensures Position(c.keys, x) < |c.keys| && c.tokens[x] == Token(Position(c.keys, x))
  {
    KeyListed(c, x);
    var j :| 0 <= j < |c.keys| && c.keys[j] == x;
    assert Position(c.keys, x) <= j;
  }

  /** Fetching a run of names from an empty cache hands each name the token
      of its position among the names in first-use order. */
  lemma FetchAllFromEmpty(names: seq<string>)
    ensures forall i :: 0 <= i < |names| ==>
      && Position(FirstUses(names, []), names[i]) < |FirstUses(names, [])|
      && FetchAll(EmptyCache, names).0[i] == Token(Position(FirstUses(names, []), names[i]))
  {
    EmptyCacheByPosition();
    FetchAllPositions(EmptyCache, names);
    FetchAllKeys(EmptyCache, names);
    FetchAllReturns(EmptyCache, names);
    var c := FetchAll(EmptyCache, names).1;
    assert c.keys == FirstUses(names, []);
    forall i | 0 <= i < |names|
      ensures Position(c.keys, names[i]) < |c.keys| && FetchAll(EmptyCache, names).0[i] == Token(Position(c.keys, names[i]))
    {
      PositionOfKey(c, names[i]);
    }
  }

  /** After clearCache, every name is compressed to `Token(j)`, where `j` is
      the place of the name among the distinct names in first-use order:
      `_0`, `_1`, `_2`, ... for new names, and the same token again for a
      name seen before, whether the memory or the disk cache is selected. */
  lemma ClearedCacheSequence(store: Store, names: seq<string>, options: CacheOptions)
    ensures forall i :: 0 <= i < |names| ==>
      && Position(FirstUses(names, []), names[i]) < |FirstUses(names, [])|
      && CompressAll(ClearCache(store, options), names, options).0[i] == Token(Position(FirstUses(names, []), names[i]))
  {
    var cleared := ClearCache(store, options);
    assert CacheOf(cleared, GetCache(options)) == EmptyCache;
    CompressAllUsesOneCache(cleared, names, options);
    FetchAllFromEmpty(names);
  }

  /** One rendering of two sheets with styles foo, bar and xyz compresses each
      name when it replaces the call and again when it writes the selector:
      the repeats get the tokens of the first uses. */
  lemma RepeatedNamesExample(store: Store, options: CacheOptions, foo: string, bar: string, xyz: string)
    requires foo != bar && bar != xyz && foo != xyz
    ensures CompressAll(ClearCache(store, options), [foo, bar, xyz, foo, bar, xyz], options).0
      == ["_0", "_1", "_2", "_0", "_1", "_2"]
  {
    var names := [foo, bar, xyz, foo, bar, xyz];
    ClearedCacheSequence(store, names, options);
    FirstUsesOfRepeatedNames(foo, bar, xyz);
    FirstTokens();
  }

  lemma FirstUsesOfRepeatedNames<T>(foo: T, bar: T, xyz: T)
    requires foo != bar && bar != xyz && foo != xyz
    ensures var firsts := FirstUses([foo, bar, xyz, foo, bar, xyz], []);
      && Position(firsts, foo) == 0 && Position(firsts, bar) == 1 && Position(firsts, xyz) == 2
  {
    RepeatedNamesFirstUses(foo, bar, xyz);
    var s3 := [foo, bar, xyz];
    assert s3[1..] == [bar, xyz] && [bar, xyz][1..] == [xyz];
    assert Position(s3, xyz) == 1 + Position([bar, xyz], xyz) == 2;
  }

  lemma RepeatedNamesFirstUses<T>(foo: T, bar: T, xyz: T)
    requires foo != bar && bar != xyz && foo != xyz
    ensures FirstUses([foo, bar, xyz, foo, bar, xyz], []) == [foo, bar, xyz]
  {
    var seen := [foo, bar, xyz];
    assert FirstUses([xyz] + seen, [foo, bar]) == [xyz] by {
      RepeatsSkipped(foo, bar, xyz);
      assert [foo, bar] + [xyz] == seen;
      NewFirstUse(xyz, seen, [foo, bar], []);
    }
    assert FirstUses([bar, xyz] + seen, [foo]) == [bar, xyz] by {
      assert [foo] + [bar] == [foo, bar] && [bar] + ([xyz] + seen) == [bar, xyz] + seen;
      NewFirstUse(bar, [xyz] + seen, [foo], [xyz]);
    }
    assert FirstUses([foo, bar, xyz] + seen, []) == seen by {
      assert [] + [foo] == [foo] && [foo] + ([bar, xyz] + seen) == [foo, bar, xyz] + seen;
      NewFirstUse(foo, [bar, xyz] + seen, [], [bar, xyz]);
    }
    assert [foo, bar, xyz] + seen == [foo, bar, xyz, foo, bar, xyz];
  }

  /** FirstUses of a run that starts with a new name. */
  lemma NewFirstUse<T>(x: T, rest: seq<T>, seen: seq<T>, r: seq<T>)
    requires x !in seen && FirstUses(rest, seen + [x]) == r
    ensures FirstUses([x] + rest, seen) == [x] + r
  {
    FirstUsesStep(x, rest, seen);
  }

  lemma RepeatsSkipped<T>(foo: T, bar: T, xyz: T)
    ensures FirstUses([foo, bar, xyz], [foo, bar, xyz]) == []
  {
    var seen := [foo, bar, xyz];
    FirstUsesStep(xyz, [], seen);
    FirstUsesStep(bar, [xyz], seen);
    FirstUsesStep(foo, [bar, xyz], seen);
    assert [bar] + [xyz] == [bar, xyz] && [foo] + [bar, xyz] == seen;
  }

  /** FirstUses takes the first name when it is new and skips it otherwise. */
  lemma FirstUsesStep<T>(x: T, rest: seq<T>, seen: seq<T>)
    ensures x in seen ==> FirstUses([x] + rest, seen) == FirstUses(rest, seen)
    ensures x !in seen ==> FirstUses([x] + rest, seen) == [x] + FirstUses(rest, seen + [x])
  {
    assert ([x] + rest)[1..] == rest;
  }

  /** The memory cache and a disk cache are different caches that, once
      cleared, hand out the same tokens for any run of names. */
  lemma MemoryAndDiskAgree(store1: Store, store2: Store, names: seq<string>, dir: string)
    requires dir != ""
    ensures var memory := CacheOptions(None);
      var disk := CacheOptions(Some(dir));
      GetCache(memory) != GetCache(disk) &&
      CompressAll(ClearCache(store1, memory), names, memory).0
        == CompressAll(ClearCache(store2, disk), names, disk).0
  {
    var memory := CacheOptions(None);
    var disk := CacheOptions(Some(dir));
    ClearedCacheSequence(store1, names, memory);
    ClearedCacheSequence(store2, names, disk);
  }
}
