/**
 * The credential cache as the token clients see it: a keyed store of credential
 * records, the filtered lookup `getCredentialsFilteredBy`, and the rule that turns the
 * filtered entries into at most one token.
 */
module CredentialCache {
  import opened Wrappers
  import opened AuthErrors

  datatype CredentialType = AccessToken | IdToken | RefreshToken

  /** One cached credential record. `oboAssertion` is set on credentials an on-behalf-of flow wrote. */
  datatype Credential = Credential(
    homeAccountId: string,
    environment: string,
    credentialType: CredentialType,
    clientId: string,
    realm: string,
    target: string,
    secret: string,
    expiresOn: int,
    oboAssertion: Option<string>)

  /** The account fields a client builds to look up a cached account. */
  datatype AccountInfo = AccountInfo(
    homeAccountId: string,
    environment: string,
    tenantId: string,
    username: string,
    localAccountId: string)

  /** A cached account. */
  datatype AccountEntity = AccountEntity(info: AccountInfo, authorityType: string)

  /** A lookup filter: every field that is present must equal the credential's. */
  datatype CredentialFilter = CredentialFilter(
    homeAccountId: Option<string>,
    environment: Option<string>,
    credentialType: Option<CredentialType>,
    clientId: Option<string>,
    realm: Option<string>,
    target: Option<string>,
    oboAssertion: Option<string>)

  predicate FieldMatches<T(==)>(want: Option<T>, have: T) {
    want.None? || want.value == have
  }

  predicate Matches(c: Credential, f: CredentialFilter) {
    FieldMatches(f.homeAccountId, c.homeAccountId)
    && FieldMatches(f.environment, c.environment)
    && FieldMatches(f.credentialType, c.credentialType)
    && FieldMatches(f.clientId, c.clientId)
    && FieldMatches(f.realm, c.realm)
    && FieldMatches(f.target, c.target)
    && (f.oboAssertion.None? || c.oboAssertion == f.oboAssertion)
  }

  /** The elements of a key sequence, as a set. */
  function KeySet(s: seq<string>): set<string> {
    set k | k in s
  }

  predicate Distinct(s: seq<string>) {
    forall i, j :: 0 <= i < j < |s| ==> s[i] != s[j]
  }

  /**
   * The store: a map from cache key to credential, plus the order in which the keys were
   * inserted (the order in which `Object.keys` lists them).
   */
  datatype CacheStore = CacheStore(order: seq<string>, entries: map<string, Credential>) {

    /** Every key is listed exactly once in the insertion order. */
    predicate Valid() {
      Distinct(order) && entries.Keys == KeySet(order)
    }

    /** `getCredentialsFilteredBy`: the entries whose credential matches the filter. */
    function GetCredentialsFilteredBy(f: CredentialFilter): (m: map<string, Credential>)
      ensures forall k :: k in m <==> k in entries && Matches(entries[k], f)
      ensures forall k :: k in m ==> m[k] == entries[k]
    {
      map k | k in entries && Matches(entries[k], f) :: entries[k]
    }

    /** `Object.keys(m).map(key => m[key])` for a map filtered out of this store. */
    function Values(m: map<string, Credential>): (r: seq<Credential>)
      ensures forall c :: c in r ==> c in m.Values
    {
      var ks := KeysInOrder(order, m);
      seq(|ks|, i requires 0 <= i < |ks| => m[ks[i]])
    }
  }

  /** The keys of `m`, in the order they appear in `order`. */
  function KeysInOrder(order: seq<string>, m: map<string, Credential>): (r: seq<string>)
    ensures forall k :: k in r <==> k in order && k in m
  {
    if order == [] then []
    else (if order[0] in m then [order[0]] else []) + KeysInOrder(order[1..], m)
  }

  lemma DistinctCons(x: string, s: seq<string>)
    requires Distinct(s) && x !in s
    ensures Distinct([x] + s)
  {
    forall i, j | 0 <= i < j < |[x] + s| ensures ([x] + s)[i] != ([x] + s)[j] {
      if i > 0 { assert ([x] + s)[i] == s[i - 1]; }
      assert ([x] + s)[j] == s[j - 1];
    }
  }

  lemma KeySetCons(order: seq<string>)
    requires order != []
    ensures KeySet(order) == {order[0]} + KeySet(order[1..])
  {
    assert order == [order[0]] + order[1..];
  }

  lemma DistinctTail(order: seq<string>)
    requires order != [] && Distinct(order)
    ensures Distinct(order[1..]) && order[0] !in order[1..]
  {
    var rest := order[1..];
    forall i, j | 0 <= i < j < |rest| ensures rest[i] != rest[j] {
      assert rest[i] == order[i + 1] && rest[j] == order[j + 1];
    }
    forall j | 0 <= j < |rest| ensures rest[j] != order[0] {
      assert rest[j] == order[j + 1];
    }
  }

  /** The matching keys of a non-empty order split into its head and its tail. */
  lemma MatchedKeysCons(order: seq<string>, m: map<string, Credential>)
    requires order != [] && order[0] !in order[1..]
    ensures order[0] !in m.Keys * KeySet(order[1..])
    ensures order[0] in m ==> m.Keys * KeySet(order) == {order[0]} + m.Keys * KeySet(order[1..])
    ensures order[0] !in m ==> m.Keys * KeySet(order) == m.Keys * KeySet(order[1..])
  {
    KeySetCons(order);
  }

  /** Keys listed once each in `order` stay listed once each after filtering. */
  lemma {:induction false} KeysInOrderCount(order: seq<string>, m: map<string, Credential>)
    requires Distinct(order)
    ensures Distinct(KeysInOrder(order, m))
    ensures |KeysInOrder(order, m)| == |m.Keys * KeySet(order)|
  {
    if order != [] {
      DistinctTail(order);
      KeysInOrderCount(order[1..], m);
      MatchedKeysCons(order, m);
      if order[0] in m {
        DistinctCons(order[0], KeysInOrder(order[1..], m));
      }
    }
  }

  /**
   * The lookup rule for access tokens: no match gives no token, more than one match is a
   * cache-integrity error, and exactly one match gives that token.
   */
  function SelectUnique(tokens: seq<Credential>): (r: Result<Option<Credential>, ClientAuthError>)
    ensures r == Success(None) <==> |tokens| == 0
    ensures r == Failure(MultipleMatchingTokensInCache) <==> |tokens| > 1
    ensures r.Success? && r.value.Some? <==> |tokens| == 1
    ensures r.Success? && r.value.Some? ==> r.value.value == tokens[0]
  {
    if |tokens| < 1 then Success(None)
    else if |tokens| > 1 then Failure(MultipleMatchingTokensInCache)
    else Success(Some(tokens[0]))
  }

  /** The lookup rule for ID tokens: the first match, and no error when there are several. */
  function SelectFirst(tokens: seq<Credential>): (r: Option<Credential>)
    ensures r.None? <==> |tokens| == 0
    ensures r.Some? ==> r.value == tokens[0]
  {
    if |tokens| < 1 then None else Some(tokens[0])
  }

  /** The number of values read out of a filtered map is the number of its entries. */
  lemma ValuesCount(store: CacheStore, m: map<string, Credential>)
    requires store.Valid()
    requires m.Keys <= store.entries.Keys
    ensures |store.Values(m)| == |m|
  {
    KeysInOrderCount(store.order, m);
    assert m.Keys * KeySet(store.order) == m.Keys;
  }

  /**
   * The central cache invariant, stated on the store: a lookup returns nothing exactly when
   * no entry matches, fails exactly when several entries match, and otherwise returns the
   * credential of the single matching entry.
   */
  lemma LookupRule(store: CacheStore, f: CredentialFilter)
    requires store.Valid()
    ensures var m := store.GetCredentialsFilteredBy(f);
      && (SelectUnique(store.Values(m)) == Success(None) <==> m == map[])
      && (SelectUnique(store.Values(m)).Failure? <==> |m| > 1)
      && (forall k :: k in m && m.Keys == {k} ==> SelectUnique(store.Values(m)) == Success(Some(m[k])))
  {
    var m := store.GetCredentialsFilteredBy(f);
    ValuesCount(store, m);
    assert m == map[] <==> |m| == 0 by {
      if |m| == 0 {
        assert m.Keys == {};
      }
    }
    forall k | k in m && m.Keys == {k}
      ensures SelectUnique(store.Values(m)) == Success(Some(m[k]))
    {
      var ks := KeysInOrder(store.order, m);
      assert |ks| == 1;
      assert ks[0] in ks;
      assert ks[0] == k;
    }
  }

  /**
   * The ID-token rule, stated on the store: a token is found exactly when some entry
   * matches, and the token found is the first matching entry in insertion order.
   */
  lemma FirstMatchRule(store: CacheStore, f: CredentialFilter)
    requires store.Valid()
    ensures var m := store.GetCredentialsFilteredBy(f);
      && (SelectFirst(store.Values(m)).None? <==> m == map[])
      && (SelectFirst(store.Values(m)).Some? ==>
            exists i :: 0 <= i < |store.order| && store.order[i] in m
              && SelectFirst(store.Values(m)).value == m[store.order[i]]
              && forall j :: 0 <= j < i ==> store.order[j] !in m)
  {
    var m := store.GetCredentialsFilteredBy(f);
    ValuesCount(store, m);
    if m != map[] {
      assert |m| != 0;
      FirstKeyIsEarliest(store.order, m);
    } else {
      assert |m| == 0;
    }
  }

  /** The first key kept by `KeysInOrder` is the earliest key of `order` that is in `m`. */
  lemma {:induction false} FirstKeyIsEarliest(order: seq<string>, m: map<string, Credential>)
    requires KeysInOrder(order, m) != []
    ensures exists i :: 0 <= i < |order| && order[i] == KeysInOrder(order, m)[0]
                        && forall j :: 0 <= j < i ==> order[j] !in m
  {
    if order[0] in m {
      assert order[0] == KeysInOrder(order, m)[0];
    } else {
      assert KeysInOrder(order, m) == KeysInOrder(order[1..], m);
      FirstKeyIsEarliest(order[1..], m);
      var i :| 0 <= i < |order[1..]| && order[1..][i] == KeysInOrder(order[1..], m)[0]
        && forall j :: 0 <= j < i ==> order[1..][j] !in m;
      assert order[i + 1] == KeysInOrder(order, m)[0];
      forall j | 0 <= j < i + 1 ensures order[j] !in m {
        if j > 0 { assert order[j] == order[1..][j - 1]; }
      }
    }
  }

  /**
   * `readAccessTokenFromCache`: the access token of the single entry that matches `f`,
   * no token when none matches, and the multiple-matching-tokens error when several do.
   */
  function ReadUniqueCredential(store: CacheStore, f: CredentialFilter): (r: Result<Option<Credential>, ClientAuthError>)
    requires store.Valid()
    ensures r == Success(None) <==> forall k :: k in store.entries ==> !Matches(store.entries[k], f)
    ensures r == Failure(MultipleMatchingTokensInCache) <==>
      exists k1, k2 :: k1 in store.entries && k2 in store.entries && k1 != k2
        && Matches(store.entries[k1], f) && Matches(store.entries[k2], f)
    ensures r.Success? && r.value.Some? ==>
      exists k :: k in store.entries && store.entries[k] == r.value.value && Matches(r.value.value, f)
        && forall k' :: k' in store.entries && Matches(store.entries[k'], f) ==> k' == k
  {
    var m := store.GetCredentialsFilteredBy(f);
    LookupRule(store, f);
    MatchCount(m);
    SelectUnique(store.Values(m))
  }

  /** `readIdTokenFromCache`: the first entry that matches `f`, if any; several matches are no error. */
  function ReadFirstCredential(store: CacheStore, f: CredentialFilter): (r: Option<Credential>)
    requires store.Valid()
    ensures r.None? <==> forall k :: k in store.entries ==> !Matches(store.entries[k], f)
    ensures r.Some? ==>
      exists i :: 0 <= i < |store.order| && store.order[i] in store.entries
        && store.entries[store.order[i]] == r.value && Matches(r.value, f)
        && forall j :: 0 <= j < i ==> !Matches(store.entries[store.order[j]], f)
  {
    var m := store.GetCredentialsFilteredBy(f);
    FirstMatchRule(store, f);
    assert m == map[] <==> forall k :: k in store.entries ==> !Matches(store.entries[k], f) by {
      if m != map[] { var k :| k in m; }
    }
    SelectFirst(store.Values(m))
  }

  /** How many entries a filtered map has, in terms of the keys it holds. */
  lemma MatchCount(m: map<string, Credential>)
    ensures m == map[] <==> forall k :: k !in m
    ensures |m| > 1 <==> exists k1, k2 :: k1 in m && k2 in m && k1 != k2
    ensures (exists k :: k in m && m.Keys == {k}) <==> |m| == 1
  {
    if |m| > 1 {
      var k1 :| k1 in m;
      assert |m.Keys - {k1}| > 0;
      var k2 :| k2 in m.Keys - {k1};
    }
    if |m| == 1 {
      var k :| k in m;
      assert m.Keys - {k} == {} by {
        assert |m.Keys - {k}| == 0;
      }
    }
    if exists k1, k2 :: k1 in m && k2 in m && k1 != k2 {
      var k1, k2 :| k1 in m && k2 in m && k1 != k2;
      assert {k1, k2} <= m.Keys;
      assert |{k1, k2}| == 2;
      SubsetCard({k1, k2}, m.Keys);
    }
    if m == map[] {
    } else {
      var k :| k in m;
    }
  }

  lemma SubsetCard(a: set<string>, b: set<string>)
    requires a <= b
    ensures |a| <= |b|
  {
    assert b == a + (b - a);
  }
}
