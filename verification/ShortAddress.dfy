/** Short display addresses: a cache keyed by rounded coordinates in front of a
    lookup service whose answers are inputs here. */
module ShortAddress {
  import opened Domain

  /** A cell of the cache: a coordinate in ten-thousandths of a degree. */
  datatype Cell = Cell(lat: int, lng: int)

  datatype Cached = Cached(placeId: string, address: string)

  /** An answer of the lookup service, for the coordinate it was asked about. */
  datatype Answer = Answer(lat: real, lng: real, cached: Cached)

  function RoundCoord(x: real): int {
    RoundHalf(x * 10000.0)
  }

  function CellOf(lat: real, lng: real): Cell {
    Cell(RoundCoord(lat), RoundCoord(lng))
  }

  /** Coordinates that share a cell are less than a ten-thousandth of a degree apart. */
  lemma SameCellIsNear(x: real, y: real)
    requires RoundCoord(x) == RoundCoord(y)
    ensures -0.0001 < x - y < 0.0001
  {
  }

  /** The geocode_cache table. */
  class GeocodeCache {
    var rows: map<Cell, Cached>

    constructor ()
      ensures rows == map[]
    {
      rows := map[];
    }

    method Get(cell: Cell) returns (hit: Option<Cached>)
      ensures hit == if cell in rows then Some(rows[cell]) else None
    {
      hit := if cell in rows then Some(rows[cell]) else None;
    }

    /** Inserts unless the cell is taken. */
    method Put(cell: Cell, cached: Cached)
      modifies this
      ensures rows == if cell in old(rows) then old(rows) else old(rows)[cell := cached]
    {
      if cell !in rows {
        rows := rows[cell := cached];
      }
    }
  }

  /** The two lookups a resolve may make; None is a failure. */
  datatype Lookup = Lookup(placeId: Option<string>, address: Option<string>)

  /** A coordinate to resolve, whether the cache can be read and written while it
      is, and what the service would say. */
  datatype Request = Request(lat: real, lng: real, readable: bool, writable: bool, lookup: Lookup)

  type CacheRows = map<Cell, Cached>

  function CellFor(q: Request): Cell {
    CellOf(q.lat, q.lng)
  }

  predicate Hits(rows: CacheRows, q: Request) {
    q.readable && CellFor(q) in rows
  }

  function Fetched(q: Request): Option<Cached> {
    if q.lookup.placeId.Some? && q.lookup.address.Some?
      then Some(Cached(q.lookup.placeId.value, q.lookup.address.value))
    else None
  }

  function Reply(rows: CacheRows, q: Request): Option<string> {
    if Hits(rows, q) then Some(rows[CellFor(q)].address)
    else if Fetched(q).Some? then Some(Fetched(q).value.address)
    else None
  }

  /** The request would leave the service's answer in its cell if that is free. */
  predicate Stores(q: Request, cell: Cell) {
    CellFor(q) == cell && q.writable && Fetched(q).Some?
  }

  function Stored(rows: CacheRows, q: Request): CacheRows {
    if CellFor(q) !in rows && Stores(q, CellFor(q)) then rows[CellFor(q) := Fetched(q).value] else rows
  }

  class Resolver {
    const cache: GeocodeCache
    ghost var answers: set<Answer>  // every answer the service has given

    constructor (cache: GeocodeCache)
      requires cache.rows == map[]
      ensures this.cache == cache && answers == {} && Valid()
    {
      this.cache := cache;
      answers := {};
    }

    /** Every cached address was given by the service for a coordinate in its cell. */
    ghost predicate Valid()
      reads this, cache
    {
      forall cell :: cell in cache.rows ==>
        exists a :: a in answers && CellOf(a.lat, a.lng) == cell && a.cached == cache.rows[cell]
    }

    /** Resolves a coordinate.  A readable cached entry is the answer; otherwise
        the service is asked, and its answer stored if the cell is free. */
    method Resolve(q: Request) returns (address: Option<string>)
      requires Valid()
      modifies this, cache
      ensures Valid() && old(answers) <= answers
      ensures cache.rows == Stored(old(cache.rows), q)
      ensures address == Reply(old(cache.rows), q)
      ensures address.Some? ==>
        exists a :: a in answers && CellOf(a.lat, a.lng) == CellFor(q) && a.cached.address == address.value
    {
      var cell := CellOf(q.lat, q.lng);
      if q.readable {
        var hit := cache.Get(cell);
        if hit.Some? {
          return Some(hit.value.address);
        }
      }
      if q.lookup.placeId.None? || q.lookup.address.None? {
        return None;
      }
      var cached := Cached(q.lookup.placeId.value, q.lookup.address.value);
      var answer := Answer(q.lat, q.lng, cached);
      answers := answers + {answer};
      if q.writable {
        cache.Put(cell, cached);
      }
      assert answer in answers && CellOf(answer.lat, answer.lng) == cell && answer.cached == cached;
      return q.lookup.address;
    }
  }

  // ----- any sequence of requests -----

  function RowsAfter(rows: CacheRows, requests: seq<Request>): CacheRows {
    if requests == [] then rows
    else Stored(RowsAfter(rows, requests[..|requests| - 1]), requests[|requests| - 1])
  }

  /** What request i is answered, given the table the earlier ones left. */
  function ReplyTo(rows: CacheRows, requests: seq<Request>, i: nat): Option<string>
    requires i < |requests|
  {
    Reply(RowsAfter(rows, requests[..i]), requests[i])
  }

  method ResolveAll(r: Resolver, requests: seq<Request>) returns (addresses: seq<Option<string>>)
    requires r.Valid()
    modifies r, r.cache
    ensures r.Valid() && old(r.answers) <= r.answers
    ensures r.cache.rows == RowsAfter(old(r.cache.rows), requests)
    ensures |addresses| == |requests|
    ensures forall i :: 0 <= i < |requests| ==> addresses[i] == ReplyTo(old(r.cache.rows), requests, i)
  {
    hide Reply, Stored;
    addresses := [];
    for i := 0 to |requests|
      invariant r.Valid() && old(r.answers) <= r.answers
      invariant r.cache.rows == RowsAfter(old(r.cache.rows), requests[..i])
      invariant |addresses| == i
      invariant forall j :: 0 <= j < i ==> addresses[j] == ReplyTo(old(r.cache.rows), requests, j)
    {
      assert requests[..i + 1][..i] == requests[..i];
      var address := r.Resolve(requests[i]);
      addresses := addresses + [address];
    }
    assert requests[..|requests|] == requests;
  }

  /** The first request that could leave an answer in the cell. */
  function FirstToStore(requests: seq<Request>, cell: Cell): (r: Option<nat>)
    ensures r.Some? ==> r.value < |requests| && Stores(requests[r.value], cell)
    ensures r.Some? ==> forall j :: 0 <= j < r.value ==> !Stores(requests[j], cell)
    ensures r.None? ==> forall j :: 0 <= j < |requests| ==> !Stores(requests[j], cell)
  {
    if requests == [] then None
    else
      var n := |requests| - 1;
      FirstToStore(requests[..n], cell).Or(if Stores(requests[n], cell) then Some(n) else None)
  }

  /** What the table holds after any sequence of requests: what it held before,
      and in each other cell the answer of the first request that could leave
      one there.  So no entry ever changes, and each was given in its own cell. */
  lemma {:induction false} TableMeaning(rows: CacheRows, requests: seq<Request>, cell: Cell)
    ensures var table, first := RowsAfter(rows, requests), FirstToStore(requests, cell);
      && (cell in table <==> cell in rows || first.Some?)
      && (cell in rows ==> table[cell] == rows[cell])
      && (cell !in rows && first.Some? ==> table[cell] == Fetched(requests[first.value]).value)
  {
    if requests == [] {
    } else {
      var n := |requests| - 1;
      TableMeaning(rows, requests[..n], cell);
      StoredMeaning(RowsAfter(rows, requests[..n]), requests[n], cell);
    }
  }

  lemma StoredMeaning(rows: CacheRows, q: Request, cell: Cell)
    ensures cell in Stored(rows, q) <==> cell in rows || Stores(q, cell)
    ensures cell in rows ==> Stored(rows, q)[cell] == rows[cell]
    ensures cell !in rows && Stores(q, cell) ==> Stored(rows, q)[cell] == Fetched(q).value
  {
  }

  /** Entries stay as they are, however many requests follow. */
  lemma {:induction false} EntriesStay(rows: CacheRows, requests: seq<Request>, n: nat, cell: Cell)
    requires n <= |requests| && cell in RowsAfter(rows, requests[..n])
    ensures cell in RowsAfter(rows, requests) && RowsAfter(rows, requests)[cell] == RowsAfter(rows, requests[..n])[cell]
    decreases |requests|
  {
    if n == |requests| {
      assert requests[..n] == requests;
    } else {
      var before := requests[..|requests| - 1];
      assert before[..n] == requests[..n];
      EntriesStay(rows, before, n, cell);
    }
  }

  /** Request i got an address that its cell holds from then on. */
  predicate Settled(rows: CacheRows, requests: seq<Request>, i: nat)
    requires i < |requests|
  {
    requests[i].readable && ReplyTo(rows, requests, i).Some?
    && (requests[i].writable || Hits(RowsAfter(rows, requests[..i]), requests[i]))
  }

  /** Once a request has read its address from the cache, or stored it there,
      every later request in the cell that can read the cache gets the same
      address, whatever the service would say: the one the cell holds at the end. */
  lemma CachedAnswersAgree(rows: CacheRows, requests: seq<Request>, i: nat, j: nat)
    requires i <= j < |requests| && CellFor(requests[i]) == CellFor(requests[j])
    requires Settled(rows, requests, i) && requests[j].readable
    ensures ReplyTo(rows, requests, j) == ReplyTo(rows, requests, i)
    ensures CellFor(requests[i]) in RowsAfter(rows, requests)
    ensures ReplyTo(rows, requests, j) == Some(RowsAfter(rows, requests)[CellFor(requests[i])].address)
  {
    var cell := CellFor(requests[i]);
    assert requests[..i + 1][..i] == requests[..i];
    assert cell in RowsAfter(rows, requests[..i + 1]);
    assert RowsAfter(rows, requests[..i + 1])[cell].address == ReplyTo(rows, requests, i).value;
    EntriesStay(rows, requests, i + 1, cell);
    if i < j {
      assert requests[..j][..i + 1] == requests[..i + 1];
      EntriesStay(rows, requests[..j], i + 1, cell);
    }
  }

  /** Starting from an empty cache, every address was given by the service, for
      this request or an earlier one in the same cell. */
  lemma EveryAnswerWasGiven(requests: seq<Request>, i: nat) returns (k: nat)
    requires i < |requests| && ReplyTo(map[], requests, i).Some?
    ensures k <= i && CellFor(requests[k]) == CellFor(requests[i])
    ensures Fetched(requests[k]).Some? && ReplyTo(map[], requests, i) == Some(Fetched(requests[k]).value.address)
  {
    var cell, before := CellFor(requests[i]), requests[..i];
    if Hits(RowsAfter(map[], before), requests[i]) {
      TableMeaning(map[], before, cell);
      k := FirstToStore(before, cell).value;
    } else {
      k := i;
    }
  }

  // ----- in numbers -----

  /** The centre of a cell is within half a ten-thousandth of each of its coordinates. */
  lemma CellLaw(lat: real, lng: real)
    ensures var cell := CellOf(lat, lng);
      && -0.00005 <= lat - cell.lat as real / 10000.0 <= 0.00005
      && -0.00005 <= lng - cell.lng as real / 10000.0 <= 0.00005
  {
  }

  /** Request i is answered from its cell if the cache can be read and has it;
      otherwise with the service's address, if both of its lookups succeed. */
  lemma ReplyLaw(rows: CacheRows, requests: seq<Request>, i: nat)
    requires i < |requests|
    ensures var q := requests[i];
      var table, cell := RowsAfter(rows, requests[..i]), CellOf(q.lat, q.lng);
      ReplyTo(rows, requests, i) ==
        if q.readable && cell in table then Some(table[cell].address)
        else if q.lookup.placeId.Some? then q.lookup.address else None
  {
  }

  /** A cell is filled by the first request in it with a writable cache and two successful lookups. */
  lemma StoreLaw(q: Request, cell: Cell)
    ensures Stores(q, cell) <==>
      CellOf(q.lat, q.lng) == cell && q.writable && q.lookup.placeId.Some? && q.lookup.address.Some?
    ensures Stores(q, cell) ==> Fetched(q) == Some(Cached(q.lookup.placeId.value, q.lookup.address.value))
  {
  }
}
