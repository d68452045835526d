/** The user profile endpoint (api/user.ts): GET reads a wallet's record, POST
    merges a partial update into it. The key-value store is a map from keys to
    records. */
module UserApi {
  import opened Wrappers

  /** A stored profile: the lower-cased wallet, an optional username, the best
      score reported and the tokens accumulated over all reports. */
  datatype UserRecord = UserRecord(wallet: string, username: Option<string>, score: int, tokens: int)

  datatype HttpMethod = Get | Post | OtherMethod

  /** The JSON body fields the handler reads; each may be absent. */
  datatype Body = Body(wallet: Option<string>, username: Option<string>, score: Option<int>, tokens: Option<int>)

  /** A request: its method, the `wallet` query parameter and the parsed body
      (absent when the request carried none). */
  datatype Request = Request(httpMethod: HttpMethod, queryWallet: Option<string>, body: Option<Body>)

  datatype Payload = UserJson(user: UserRecord) | ErrorJson(message: string)

  /** What the handler produces: a status with a JSON payload, or an exception
      escaping the handler. */
  datatype Response = Reply(status: int, payload: Payload) | Thrown

  type Store = map<string, UserRecord>

  datatype Handled = Handled(response: Response, store: Store)

  const KeyPrefix: string := "user:"

  function LowerChar(c: char): char {
    if 'A' <= c <= 'Z' then (c as int + 32) as char else c
  }

  /** `toLowerCase` over the ASCII letters. */
  function Lower(s: string): (r: string)
    ensures |r| == |s|
    ensures forall i :: 0 <= i < |s| ==> r[i] == LowerChar(s[i])
    ensures forall i :: 0 <= i < |r| ==> !('A' <= r[i] <= 'Z')
  {
    seq(|s|, (i: int) requires 0 <= i < |s| => LowerChar(s[i]))
  }

  /** Lower-casing twice is lower-casing once, so an already normalised wallet
      is its own key. */
  lemma LowerIsIdempotent(s: string)
    ensures Lower(Lower(s)) == Lower(s)
  {
    var once := Lower(s);
    assert forall i :: 0 <= i < |once| ==> LowerChar(once[i]) == once[i];
  }

  /** JavaScript truthiness of an optional string: present and non-empty. */
  predicate Truthy(s: Option<string>) {
    s.Some? && s.value != ""
  }

  /** The wallet the request names: the query parameter if it is truthy,
      otherwise the body's wallet field, lower-cased. */
  function WalletOf(req: Request): (r: Option<string>)
    ensures Truthy(req.queryWallet) ==> r == Some(Lower(req.queryWallet.value))
    ensures !Truthy(req.queryWallet) && req.body.Some? && req.body.value.wallet.Some? ==> r == Some(Lower(req.body.value.wallet.value))
    ensures !Truthy(req.queryWallet) && (req.body.None? || req.body.value.wallet.None?) ==> r == None
  {
    var raw := if Truthy(req.queryWallet) then req.queryWallet
               else if req.body.Some? then req.body.value.wallet
               else None;
    match raw
    case None => None
    case Some(w) => Some(Lower(w))
  }

  function Key(wallet: string): string {
    KeyPrefix + wallet
  }

  /** Distinct normalised wallets have distinct keys. */
  lemma KeyIsInjective(a: string, b: string)
    requires Key(a) == Key(b)
    ensures a == b
  {
    assert a == Key(a)[|KeyPrefix|..];
    assert b == Key(b)[|KeyPrefix|..];
  }

  /** The record reported for a wallet that has never been stored. */
  function Fresh(wallet: string): UserRecord {
    UserRecord(wallet, None, 0, 0)
  }

  /** The stored record for a wallet, or the fresh record. */
  function Lookup(store: Store, wallet: string): (r: UserRecord)
    ensures Key(wallet) in store ==> r == store[Key(wallet)]
    ensures Key(wallet) !in store ==> r == Fresh(wallet)
  {
    if Key(wallet) in store then store[Key(wallet)] else Fresh(wallet)
  }

  /** Merge a POST body into a record: a truthy username replaces the old one;
      a numeric score is kept only if it beats the old score, and then the
      reported tokens (or none) are added to the old ones. */
  function Merge(existing: UserRecord, body: Body): (r: UserRecord)
    ensures r.wallet == existing.wallet
    ensures r.username == if Truthy(body.username) then body.username else existing.username
    ensures body.score.Some? ==> r.score >= existing.score && r.score >= body.score.value
    ensures body.score.Some? ==> r.score == existing.score || r.score == body.score.value
    ensures body.score.Some? ==> r.tokens == existing.tokens + body.tokens.GetOr(0)
    ensures body.score.None? ==> r.score == existing.score && r.tokens == existing.tokens
  {
    var named := if Truthy(body.username) then existing.(username := body.username) else existing;
    match body.score
    case None => named
    case Some(s) =>
      named.(score := if named.score >= s then named.score else s, tokens := named.tokens + body.tokens.GetOr(0))
  }

  /** The handler: GET and POST with a truthy wallet are served, anything else
      is a 400. */
  function Handle(store: Store, req: Request): (r: Handled)
    ensures !Truthy(WalletOf(req)) || req.httpMethod == OtherMethod ==>
      r == Handled(Reply(400, ErrorJson("bad request")), store)
    ensures req.httpMethod == Get && Truthy(WalletOf(req)) ==>
      r == Handled(Reply(200, UserJson(Lookup(store, WalletOf(req).value))), store)
    ensures req.httpMethod == Post && Truthy(WalletOf(req)) && req.body.None? ==>
      r == Handled(Thrown, store)
    ensures req.httpMethod == Post && Truthy(WalletOf(req)) && req.body.Some? ==>
      var merged := Merge(Lookup(store, WalletOf(req).value), req.body.value);
      r == Handled(Reply(200, UserJson(merged)), store[Key(WalletOf(req).value) := merged])
  {
    var wallet := WalletOf(req);
    if req.httpMethod == Get && Truthy(wallet) then
      Handled(Reply(200, UserJson(Lookup(store, wallet.value))), store)
    else if req.httpMethod == Post && Truthy(wallet) then
      match req.body
      case None => Handled(Thrown, store)
      case Some(body) =>
        var merged := Merge(Lookup(store, wallet.value), body);
        Handled(Reply(200, UserJson(merged)), store[Key(wallet.value) := merged])
    else
      Handled(Reply(400, ErrorJson("bad request")), store)
  }

  /** Only a served POST writes, and it writes only the requested wallet's key:
      every other key keeps its value. */
  lemma HandleTouchesOneKey(store: Store, req: Request)
    ensures var r := Handle(store, req);
      && (req.httpMethod != Post ==> r.store == store)
      && (Truthy(WalletOf(req)) ==>
            forall k :: k != Key(WalletOf(req).value) ==> (k in r.store <==> k in store) && (k in store ==> r.store[k] == store[k]))
      && (Truthy(WalletOf(req)) ==> r.store.Keys <= store.Keys + {Key(WalletOf(req).value)})
      && (!Truthy(WalletOf(req)) ==> r.store == store)
  {
  }

  /** A GET after a served POST for the same wallet, spelled in any letter
      case, returns the record the POST returned. */
  lemma GetAfterPost(store: Store, post: Request, get: Request)
    requires post.httpMethod == Post && Truthy(WalletOf(post)) && post.body.Some?
    requires get.httpMethod == Get && Truthy(WalletOf(get))
    requires WalletOf(get) == WalletOf(post)
    ensures var p := Handle(store, post);
      Handle(p.store, get).response == p.response
  {
  }

  /** The stored score never decreases under any request. */
  lemma HandleNeverLowersScore(store: Store, req: Request, k: string)
    requires k in store
    ensures var r := Handle(store, req);
      k in r.store && r.store[k].score >= store[k].score
  {
  }

  /** A POST that carries no score changes at most the username, so repeating
      it changes nothing more. */
  lemma NamePostIsIdempotent(store: Store, req: Request)
    requires req.httpMethod == Post && req.body.Some? && req.body.value.score.None?
    ensures var once := Handle(store, req);
      Handle(once.store, req) == once
  {
  }

  /** Tokens are accumulated, not replaced: two score reports add both token
      counts to the stored total. */
  lemma ReportsAccumulateTokens(store: Store, req1: Request, req2: Request)
    requires req1.httpMethod == Post && Truthy(WalletOf(req1)) && req1.body.Some? && req1.body.value.score.Some?
    requires req2.httpMethod == Post && req2.body.Some? && req2.body.value.score.Some?
    requires WalletOf(req2) == WalletOf(req1)
    ensures var key := Key(WalletOf(req1).value);
            var r2 := Handle(Handle(store, req1).store, req2);
      r2.store[key].tokens
        == Lookup(store, WalletOf(req1).value).tokens + req1.body.value.tokens.GetOr(0) + req2.body.value.tokens.GetOr(0)
  {
  }

  /** Every key the handler writes carries the `user:` prefix the leaderboard
      lists. */
  lemma WrittenKeysAreUserKeys(store: Store, req: Request)
    requires forall k <- store :: |k| >= |KeyPrefix| && k[..|KeyPrefix|] == KeyPrefix
    ensures forall k <- Handle(store, req).store :: |k| >= |KeyPrefix| && k[..|KeyPrefix|] == KeyPrefix
  {
  }
}
