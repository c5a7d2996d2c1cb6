/** Dataset descriptors and loading (`DATASETS`, `currentDataset`,
    `fetchCards` in script.js). The network is a parameter: `fetch(url)` is
    the response to a `no-store` request for `url`, with its body already
    parsed into records. */
module Loader {
  import opened Wrappers
  import opened Cards
  import Shuffler

  /** A dataset descriptor: either one `url`, or a `combined` list of urls
      whose records are concatenated. */
  datatype Dataset = Dataset(id: string, name: string, url: Option<string>, combined: Option<seq<string>>)

  const DATASETS: seq<Dataset> := [
    Dataset("all", "Vse besede", Some("english_words.json"), None),
    Dataset("combined", "Vse enote skupaj (Unit 1 + Unit 2)", None, Some(["unit1.json", "unit2.json"])),
    Dataset("unit1", "Unit 1", Some("unit1.json"), None),
    Dataset("unit2", "Unit 2", Some("unit2.json"), None)
  ]

  /** What a request yields: `resp.ok`, `resp.status` and the parsed body. */
  datatype Response = Response(ok: bool, status: int, records: seq<Record>)

  /** The error `fetchCards` throws on a non-OK response. */
  datatype LoadError = TransportError(status: int)

  /** `DATASETS.find(d => d.id === id)`: the first descriptor with that id. */
  function FindById(ds: seq<Dataset>, id: string): (r: Option<Dataset>)
    ensures r.Some? <==> exists k :: 0 <= k < |ds| && ds[k].id == id
    ensures r.Some? ==> exists k :: 0 <= k < |ds| && ds[k] == r.value && r.value.id == id
                                    && forall j :: 0 <= j < k ==> ds[j].id != id
  {
    if |ds| == 0 then None
    else if ds[0].id == id then Some(ds[0])
    else
      var r := FindById(ds[1..], id);
      assert forall k :: 1 <= k < |ds| ==> ds[k] == ds[1..][k - 1];
      r
  }

  /** `currentDataset()`: the descriptor whose id is selected, or the first
      descriptor when none has it. */
  function CurrentDataset(selected: string): (d: Dataset)
    ensures d in DATASETS
    ensures (exists k :: 0 <= k < |DATASETS| && DATASETS[k].id == selected) ==> d.id == selected
    ensures (forall k :: 0 <= k < |DATASETS| ==> DATASETS[k].id != selected) ==> d == DATASETS[0]
  {
    match FindById(DATASETS, selected)
    case Some(d) => d
    case None => DATASETS[0]
  }

  /** The url a request is made for: `fetch(null)` requests "null". */
  function RequestUrl(u: Option<string>): (s: string)
    ensures u.Some? ==> s == u.value
    ensures u.None? ==> s == "null"
  {
    match u
    case Some(v) => v
    case None => "null"
  }

  /** Loading the urls of a combined dataset one after the other: the
      first non-OK response aborts the load. */
  function LoadAll(urls: seq<string>, fetch: string -> Response): (r: Result<seq<Record>, LoadError>)
    ensures |urls| == 0 ==> r == Ok([])
    ensures r.Err? ==> exists k :: 0 <= k < |urls| && !fetch(urls[k]).ok
                                   && r.error == TransportError(fetch(urls[k]).status)
  {
    if |urls| == 0 then Ok([])
    else
      var resp := fetch(urls[0]);
      if !resp.ok then Err(TransportError(resp.status))
      else Prepend(resp.records, LoadAll(urls[1..], fetch))
  }

  function Prepend(front: seq<Record>, r: Result<seq<Record>, LoadError>): Result<seq<Record>, LoadError> {
    match r
    case Ok(rest) => Ok(front + rest)
    case Err(e) => Err(e)
  }

  lemma PrependTwice(a: seq<Record>, b: seq<Record>, r: Result<seq<Record>, LoadError>)
    ensures Prepend(a, Prepend(b, r)) == Prepend(a + b, r)
  {
    if r.Ok? {
      assert a + (b + r.value) == (a + b) + r.value;
    }
  }

  /** The records `fetchCards` has gathered before it shuffles them. */
  function LoadRecords(dataset: Dataset, fetch: string -> Response): (r: Result<seq<Record>, LoadError>)
    ensures dataset.combined.Some? ==>
              (r.Ok? <==> forall k :: 0 <= k < |dataset.combined.value| ==> fetch(dataset.combined.value[k]).ok)
    ensures dataset.combined.None? ==> (r.Ok? <==> fetch(RequestUrl(dataset.url)).ok)
    ensures dataset.combined.None? && r.Ok? ==> r.value == fetch(RequestUrl(dataset.url)).records
    ensures dataset.combined.None? && r.Err? ==> r.error == TransportError(fetch(RequestUrl(dataset.url)).status)
  {
    match dataset.combined
    case Some(urls) => LoadAllOk(urls, fetch); LoadAll(urls, fetch)
    case None =>
      var resp := fetch(RequestUrl(dataset.url));
      if !resp.ok then Err(TransportError(resp.status)) else Ok(resp.records)
  }

  /** A combined load succeeds exactly when every response is OK. */
  lemma {:induction false} LoadAllOk(urls: seq<string>, fetch: string -> Response)
    ensures LoadAll(urls, fetch).Ok? <==> forall k :: 0 <= k < |urls| ==> fetch(urls[k]).ok
  {
    if |urls| > 0 {
      LoadAllOk(urls[1..], fetch);
      assert forall k :: 1 <= k < |urls| ==> urls[k] == urls[1..][k - 1];
    }
  }

  /** A failed combined load reports the status of the first non-OK
      response; nothing loaded before it is returned. */
  lemma {:induction false} LoadAllFirstFailure(urls: seq<string>, fetch: string -> Response, k: int)
    requires 0 <= k < |urls| && !fetch(urls[k]).ok
    requires forall j :: 0 <= j < k ==> fetch(urls[j]).ok
    ensures LoadAll(urls, fetch) == Err(TransportError(fetch(urls[k]).status))
  {
    if k > 0 {
      assert fetch(urls[0]).ok;
      assert forall j :: 0 <= j < k - 1 ==> urls[1..][j] == urls[j + 1];
      LoadAllFirstFailure(urls[1..], fetch, k - 1);
    }
  }

  /** Records are concatenated in the order of the urls: loading `u + v`
      gives the records of `u` followed by those of `v`. */
  lemma {:induction false} LoadAllAppend(u: seq<string>, v: seq<string>, fetch: string -> Response)
    requires LoadAll(u, fetch).Ok? && LoadAll(v, fetch).Ok?
    ensures LoadAll(u + v, fetch) == Ok(LoadAll(u, fetch).value + LoadAll(v, fetch).value)
  {
    if |u| == 0 {
      assert u + v == v;
      assert [] + LoadAll(v, fetch).value == LoadAll(v, fetch).value;
    } else {
      assert (u + v)[0] == u[0];
      assert (u + v)[1..] == u[1..] + v;
      var head := fetch(u[0]).records;
      var rest := LoadAll(u[1..], fetch);
      assert LoadAll(u, fetch) == Prepend(head, rest);
      LoadAllAppend(u[1..], v, fetch);
      assert LoadAll(u + v, fetch) == Prepend(head, LoadAll(u[1..] + v, fetch));
      assert head + (rest.value + LoadAll(v, fetch).value) == (head + rest.value) + LoadAll(v, fetch).value;
    }
  }

  /** `fetchCards(dataset)`: gather the records (url by url for a combined
      dataset), shuffle a copy, and build the cards. `draws` are the
      `Math.random()` values of the shuffle, `directions` the direction
      draws. */
  method FetchCards(dataset: Dataset, fetch: string -> Response, draws: seq<real>, directions: seq<bool>)
    returns (r: Result<seq<Card>, LoadError>)
    requires Shuffler.ValidDraws(draws)
    requires LoadRecords(dataset, fetch).Ok? ==>
               |draws| == |LoadRecords(dataset, fetch).value| && |directions| == |draws|
    ensures r.Err? <==> LoadRecords(dataset, fetch).Err?
    ensures r.Err? ==> r.error == LoadRecords(dataset, fetch).error
    ensures r.Ok? ==> r.value == BuildCards(
              Shuffler.ShuffledWith(LoadRecords(dataset, fetch).value, Shuffler.SwapIndices(draws)),
              directions)
  {
    var allData: seq<Record> := [];
    if dataset.combined.Some? {
      var urls := dataset.combined.value;
      var k := 0;
      assert urls[k..] == urls;
      assert LoadAll(urls, fetch).Ok? ==> [] + LoadAll(urls, fetch).value == LoadAll(urls, fetch).value;
      while k < |urls|
        invariant 0 <= k <= |urls|
        invariant LoadAll(urls, fetch) == Prepend(allData, LoadAll(urls[k..], fetch))
      {
        var resp := fetch(urls[k]);
        assert urls[k..][0] == urls[k] && urls[k..][1..] == urls[k + 1..];
        if !resp.ok {
          return Err(TransportError(resp.status));
        }
        PrependTwice(allData, resp.records, LoadAll(urls[k + 1..], fetch));
        allData := allData + resp.records;
        k := k + 1;
      }
      assert urls[k..] == [];
    } else {
      var resp := fetch(RequestUrl(dataset.url));
      if !resp.ok {
        return Err(TransportError(resp.status));
      }
      allData := resp.records;
    }
    var copy := new Record[|allData|](i requires 0 <= i < |allData| => allData[i]);
    assert copy[..] == allData;
    assert allData == LoadRecords(dataset, fetch).value;
    Shuffler.Shuffle(copy, draws);
    assert copy[..] == Shuffler.ShuffledWith(allData, Shuffler.SwapIndices(draws));
    r := Ok(BuildCards(copy[..], directions));
  }
}
