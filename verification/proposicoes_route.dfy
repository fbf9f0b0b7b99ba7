/** The proxy route src/app/api/proposicoes/route.ts: it rewrites the incoming query, forwards it
    to the Câmara's `/proposicoes` endpoint and turns every failure into a 500 answer. */
module ProposicoesRoute {
  import opened Js
  import opened Seqs
  import opened ApiClient

  const ApiBaseUrl := "https://dadosabertos.camara.leg.br/api/v2"
  const AuthorKey := "idDeputadoAutor"
  const OrderKey := "ordenarPor"
  const FailureMessage := "Failed to fetch proposicoes data from Câmara API"

  /** An incoming or outgoing query: `URLSearchParams` as its list of pairs, in order. */
  type Params = seq<(string, string)>

  predicate HasKey(ps: Params, key: string) {
    exists i :: 0 <= i < |ps| && ps[i].0 == key
  }

  /** `searchParams.get(key)`: the value of the first pair with that key. */
  function FirstValue(ps: Params, key: string): (r: string)
    requires HasKey(ps, key)
    ensures exists i :: 0 <= i < |ps| && ps[i] == (key, r) && forall j :: 0 <= j < i ==> ps[j].0 != key
  {
    if ps[0].0 == key then ps[0].1
    else
      assert HasKey(ps[1..], key) by {
        var i :| 0 <= i < |ps| && ps[i].0 == key;
        assert ps[1..][i - 1] == ps[i];
      }
      var r := FirstValue(ps[1..], key);
      ghost var i :| 0 <= i < |ps[1..]| && ps[1..][i] == (key, r) && forall j :: 0 <= j < i ==> ps[1..][j].0 != key;
      assert ps[i + 1] == (key, r);
      assert forall j :: 1 <= j < i + 1 ==> ps[j] == ps[1..][j - 1];
      r
  }

  /** The pairs the `forEach` copies: every key but the author and the ordering. */
  predicate Copied(pair: (string, string)) {
    pair.0 != AuthorKey && pair.0 != OrderKey
  }

  function CopiedPair(): ((string, string)) -> bool {
    pair => Copied(pair)
  }

  /** The query the route sends upstream. */
  function Forwarded(incoming: Params): Params {
    Filter(incoming, CopiedPair())
      + (if HasKey(incoming, AuthorKey) then [(AuthorKey, FirstValue(incoming, AuthorKey))] else [])
  }

  /** The `forEach` over the incoming pairs, then the author appended once. */
  method RewriteParams(incoming: Params) returns (params: Params)
    ensures params == Forwarded(incoming)
  {
    params := [];
    for i := 0 to |incoming|
      invariant params == Filter(incoming[..i], CopiedPair())
    {
      var (key, value) := incoming[i];
      FilterSnoc(incoming[..i], incoming[i], CopiedPair());
      assert incoming[..i + 1] == incoming[..i] + [incoming[i]];
      if key != AuthorKey && key != OrderKey {
        params := params + [(key, value)];
      }
    }
    assert incoming[..|incoming|] == incoming;
    if HasKey(incoming, AuthorKey) {
      params := params + [(AuthorKey, FirstValue(incoming, AuthorKey))];
    }
  }

  function CountKey(ps: Params, key: string): (r: nat)
    ensures r <= |ps|
  {
    if ps == [] then 0 else (if ps[0].0 == key then 1 else 0) + CountKey(ps[1..], key)
  }

  lemma {:induction false} CountAppend(a: Params, b: Params, key: string)
    ensures CountKey(a + b, key) == CountKey(a, key) + CountKey(b, key)
  {
    if a != [] {
      assert (a + b)[1..] == a[1..] + b;
      CountAppend(a[1..], b, key);
    } else {
      assert a + b == b;
    }
  }

  lemma {:induction false} CountAbsent(ps: Params, key: string)
    requires forall i :: 0 <= i < |ps| ==> ps[i].0 != key
    ensures CountKey(ps, key) == 0
  {
    if ps != [] {
      CountAbsent(ps[1..], key);
    }
  }

  /** The ordering key is never forwarded. */
  lemma NoOrdering(incoming: Params)
    ensures !HasKey(Forwarded(incoming), OrderKey)
  {
    var copied := Filter(incoming, CopiedPair());
    forall i | 0 <= i < |copied|
      ensures copied[i].0 != OrderKey
    {
      FilterMembership(incoming, CopiedPair(), copied[i]);
    }
  }

  /** The author key is forwarded exactly once, last, with its first incoming value, when it came
      in at all, and not at all otherwise. */
  lemma AuthorOnceLast(incoming: Params)
    ensures var out := Forwarded(incoming);
            && (HasKey(incoming, AuthorKey) ==>
                  CountKey(out, AuthorKey) == 1 && out[|out| - 1] == (AuthorKey, FirstValue(incoming, AuthorKey)))
            && (!HasKey(incoming, AuthorKey) ==> CountKey(out, AuthorKey) == 0)
  {
    var copied := Filter(incoming, CopiedPair());
    forall i | 0 <= i < |copied|
      ensures copied[i].0 != AuthorKey
    {
      FilterMembership(incoming, CopiedPair(), copied[i]);
    }
    CountAbsent(copied, AuthorKey);
    if HasKey(incoming, AuthorKey) {
      var last: Params := [(AuthorKey, FirstValue(incoming, AuthorKey))];
      CountAppend(copied, last, AuthorKey);
    } else {
      assert Forwarded(incoming) == copied;
    }
  }

  /** Every other pair is forwarded, in its original order, ahead of the author. */
  lemma OthersKept(incoming: Params)
    ensures var copied := Forwarded(incoming)[..|Filter(incoming, CopiedPair())|];
            && IsSubsequence(copied, incoming)
            && forall i :: 0 <= i < |incoming| && Copied(incoming[i]) ==> incoming[i] in copied
  {
    var copied := Filter(incoming, CopiedPair());
    assert Forwarded(incoming)[..|copied|] == copied;
    FilterIsSubsequence(incoming, CopiedPair());
    forall i | 0 <= i < |incoming| && Copied(incoming[i])
      ensures incoming[i] in copied
    {
      FilterMembership(incoming, CopiedPair(), incoming[i]);
    }
  }

  /** The upstream URL. */
  function UpstreamUrl(incoming: Params): (r: string)
    ensures var base := ApiBaseUrl + "/proposicoes?";
            |base| <= |r| && r[..|base|] == base && r[|base|..] == QueryString(Forwarded(incoming))
    ensures Forwarded(incoming) == [] ==> r == ApiBaseUrl + "/proposicoes?"
  {
    ApiBaseUrl + "/proposicoes?" + QueryString(Forwarded(incoming))
  }

  /** What the route answers: a status, a JSON body, and whether the CORS headers are set. */
  datatype RouteResponse = RouteResponse(status: int, body: Json, cors: bool)

  /** `GET`: the upstream body with the CORS headers when the answer is ok, otherwise (a non-ok
      status, or a thrown failure) a 500 with a fixed error message. */
  function Route(outcome: FetchOutcome): (r: RouteResponse)
    ensures outcome.Response? && IsOk(outcome.status) ==> r == RouteResponse(200, outcome.body, true)
    ensures !(outcome.Response? && IsOk(outcome.status)) ==>
              r == RouteResponse(500, JObject([("error", JString(FailureMessage))]), false)
  {
    match outcome
    case Response(status, _, body) =>
      if IsOk(status) then RouteResponse(200, body, true)
      else RouteResponse(500, JObject([("error", JString(FailureMessage))]), false)
    case Thrown(_, _) => RouteResponse(500, JObject([("error", JString(FailureMessage))]), false)
  }

  /** The route answers 200 or 500, and 500 exactly when the upstream request did not succeed. */
  lemma RouteStatus(outcome: FetchOutcome)
    ensures Route(outcome).status in {200, 500}
    ensures Route(outcome).status == 500 <==> !(outcome.Response? && IsOk(outcome.status))
  {
  }
}
