/** Product reads through the cache (product.service.ts, cache.service.ts). */
module ProductCache {
  import opened Wrappers
  import opened Store

  // ---- Keys -----------------------------------------------------------------------------------------------

  const DIGIT := "0123456789"

  /** An id inside a template string. */
  function Decimal(n: nat): (s: string)
    ensures |s| > 0
    ensures forall c | c in s :: '0' <= c <= '9'
  {
    if n < 10 then [DIGIT[n]] else Decimal(n / 10) + [DIGIT[n % 10]]
  }

  function ToString(i: int): string {
    if i < 0 then "-" + Decimal(-i) else Decimal(i)
  }

  function DetailKey(id: int): string { "product_detail_" + ToString(id) }

  function PopularKey(limit: int): string { "popular_products_" + ToString(limit) }

  lemma {:induction false} DecimalInjective(a: nat, b: nat)
    requires Decimal(a) == Decimal(b)
    ensures a == b
  {
    var s, t := Decimal(a), Decimal(b);
    assert s[|s| - 1] == DIGIT[a % 10] && t[|t| - 1] == DIGIT[b % 10];
    assert a % 10 == b % 10;
    if a >= 10 && b >= 10 {
      assert s[..|s| - 1] == Decimal(a / 10) && t[..|t| - 1] == Decimal(b / 10);
      DecimalInjective(a / 10, b / 10);
    }
  }

  lemma SignShows(i: int)
    ensures |ToString(i)| > 0 && (ToString(i)[0] == '-' <==> i < 0)
  {
    if i >= 0 { assert Decimal(i)[0] in Decimal(i); }
  }

  lemma ToStringInjective(i: int, j: int)
    requires ToString(i) == ToString(j)
    ensures i == j
  {
    SignShows(i);
    SignShows(j);
    if i < 0 {
      assert ToString(i)[1..] == Decimal(-i) && ToString(j)[1..] == Decimal(-j);
      DecimalInjective(-i, -j);
    } else {
      DecimalInjective(i, j);
    }
  }

  /** Keys of different reads never collide. */
  lemma KeysApart(i: int, j: int)
    ensures DetailKey(i) == DetailKey(j) ==> i == j
    ensures PopularKey(i) == PopularKey(j) ==> i == j
    ensures DetailKey(i) != PopularKey(j)
  {
    assert DetailKey(i)[15..] == ToString(i) && DetailKey(j)[15..] == ToString(j);
    assert PopularKey(i)[17..] == ToString(i) && PopularKey(j)[17..] == ToString(j);
    if DetailKey(i) == DetailKey(j) || PopularKey(i) == PopularKey(j) { ToStringInjective(i, j); }
    assert DetailKey(i)[1] == 'r' && PopularKey(j)[1] == 'o';
  }

  // ---- Rows and what a reader gets ------------------------------------------------------------------------

  datatype Image = Image(id: int, productVariantId: Option<int>, imageUrl: string, sequence: int)

  datatype VariantRow = VariantRow(id: int, optionName: string, stockQuantity: int, price: Money)

  datatype ProductRow = ProductRow(
    id: int, name: string, basePrice: Money, description: string, isActive: bool,
    productImages: seq<Image>, variants: seq<VariantRow>)

  /** The product table, and the active products' ids by how often they were ordered. */
  datatype Repository = Repository(products: map<int, ProductRow>, ranking: seq<int>)

  datatype VariantDto = VariantDto(id: int, optionName: string, stockQuantity: int, price: Money)

  datatype ProductDto = ProductDto(
    id: int, name: string, basePrice: Money, description: string, isActive: bool,
    productImages: seq<Image>, variants: seq<VariantDto>)

  datatype Cached = Detail(product: ProductDto) | Popular(products: seq<ProductDto>)

  function MapVariants(variants: seq<VariantRow>): seq<VariantDto> {
    seq(|variants|, i requires 0 <= i < |variants| =>
      VariantDto(variants[i].id, variants[i].optionName, variants[i].stockQuantity, variants[i].price))
  }

  function MapProduct(row: ProductRow): ProductDto {
    ProductDto(row.id, row.name, row.basePrice, row.description, row.isActive, row.productImages,
               MapVariants(row.variants))
  }

  function MapProducts(repo: Repository, ids: seq<int>): seq<ProductDto> {
    if ids == [] then []
    else
      MapProducts(repo, ids[..|ids| - 1])
      + (if ids[|ids| - 1] in repo.products then [MapProduct(repo.products[ids[|ids| - 1]])] else [])
  }

  /** The two reads without a cache; a missing product is an error. */
  function FetchDetail(repo: Repository, id: int): Option<Cached> {
    if id in repo.products then Some(Detail(MapProduct(repo.products[id]))) else None
  }

  function FetchPopular(repo: Repository, limit: nat): Option<Cached> {
    Some(Popular(MapProducts(repo, if limit < |repo.ranking| then repo.ranking[..limit] else repo.ranking)))
  }

  /** A reader sees the row's own fields, and every variant's with its own stock and price. */
  lemma MappingLaw(row: ProductRow)
    ensures var d := MapProduct(row);
            && d.id == row.id && d.name == row.name && d.basePrice == row.basePrice
            && d.description == row.description && d.isActive == row.isActive && d.productImages == row.productImages
            && |d.variants| == |row.variants|
            && forall i | 0 <= i < |row.variants| ::
                 && d.variants[i].id == row.variants[i].id
                 && d.variants[i].optionName == row.variants[i].optionName
                 && d.variants[i].stockQuantity == row.variants[i].stockQuantity
                 && d.variants[i].price == row.variants[i].price
  {
  }

  /** A product's detail is that of the row with its id; without such a row there is none. */
  lemma DetailLaw(repo: Repository, id: int)
    ensures id !in repo.products ==> FetchDetail(repo, id) == None
    ensures id in repo.products ==> FetchDetail(repo, id) == Some(Detail(MapProduct(repo.products[id])))
  {
  }

  lemma {:induction false} MapsEach(repo: Repository, ids: seq<int>)
    requires forall i | 0 <= i < |ids| :: ids[i] in repo.products
    ensures |MapProducts(repo, ids)| == |ids|
    ensures forall i | 0 <= i < |ids| :: MapProducts(repo, ids)[i] == MapProduct(repo.products[ids[i]])
  {
    if ids != [] { MapsEach(repo, ids[..|ids| - 1]); }
  }

  /** The popular products are the first of the ranking, as many as asked for, in its order. */
  lemma PopularLaw(repo: Repository, limit: nat)
    requires forall i | 0 <= i < |repo.ranking| :: repo.ranking[i] in repo.products
    ensures var r := FetchPopular(repo, limit);
            && r.Some? && r.value.Popular?
            && |r.value.products| == (if limit < |repo.ranking| then limit else |repo.ranking|)
            && forall i | 0 <= i < |r.value.products| ::
                 r.value.products[i] == MapProduct(repo.products[repo.ranking[i]])
  {
    MapsEach(repo, if limit < |repo.ranking| then repo.ranking[..limit] else repo.ranking);
  }

  // ---- The cache ------------------------------------------------------------------------------------------

  const DETAIL_TTL: nat := 60 * 1000 * 30
  const POPULAR_TTL: nat := 60 * 1000 * 10

  datatype Entry = Entry(value: Cached, expires: int)

  /** An entry lives up to and including the millisecond it expires in. */
  function Get(entries: map<string, Entry>, key: string, now: int): Option<Cached> {
    if key in entries && now <= entries[key].expires then Some(entries[key].value) else None
  }

  class CacheService {
    var entries: map<string, Entry>

    constructor ()
      ensures entries == map[]
    {
      entries := map[];
    }

    /** What is cached is returned as it is; what is fetched is cached; what throws is not. */
    method GetOrSet(key: string, fetch: Repository -> Option<Cached>, repo: Repository, ttl: nat, now: int)
      returns (r: Option<Cached>)
      modifies this
      ensures var cached := Get(old(entries), key, now);
              && r == (if cached.Some? then cached else fetch(repo))
              && entries == if cached.None? && r.Some? then old(entries)[key := Entry(r.value, now + ttl)]
                            else old(entries)
    {
      if key in entries && now <= entries[key].expires {
        return Some(entries[key].value);
      }
      r := fetch(repo);
      if r.Some? {
        entries := entries[key := Entry(r.value, now + ttl)];
      }
    }
  }

  class ProductService {
    const cacheService: CacheService
    var productRepository: Repository

    constructor (cache: CacheService, repo: Repository)
      ensures cacheService == cache && productRepository == repo
    {
      cacheService, productRepository := cache, repo;
    }

    ghost function Snapshot(now: int): Shop
      reads this, cacheService
    {
      Shop(now, productRepository, cacheService.entries)
    }

    method GetProductById(id: int, now: int) returns (r: Option<Cached>)
      modifies cacheService
      ensures r == Answer(old(Snapshot(now)), ReadDetail(id))
      ensures Snapshot(now) == Next(old(Snapshot(now)), ReadDetail(id))
    {
      r := cacheService.GetOrSet(DetailKey(id), repo => FetchDetail(repo, id), productRepository, DETAIL_TTL, now);
    }

    method GetPopularProducts(limit: nat, now: int) returns (r: Option<Cached>)
      modifies cacheService
      ensures r == Answer(old(Snapshot(now)), ReadPopular(limit))
      ensures Snapshot(now) == Next(old(Snapshot(now)), ReadPopular(limit))
    {
      r := cacheService.GetOrSet(PopularKey(limit), repo => FetchPopular(repo, limit), productRepository, POPULAR_TTL,
                                 now);
    }
  }

  // ---- Runs ---------------------------------------------------------------------------------------------

  datatype Shop = Shop(now: int, repo: Repository, entries: map<string, Entry>)

  datatype Read = ReadDetail(id: int) | ReadPopular(limit: nat)

  datatype Step = Look(read: Read) | Tick(elapsed: nat) | Change(repo: Repository) | Evict(key: string)

  function KeyOf(read: Read): string {
    match read
    case ReadDetail(id) => DetailKey(id)
    case ReadPopular(limit) => PopularKey(limit)
  }

  function Ttl(read: Read): nat {
    if read.ReadDetail? then DETAIL_TTL else POPULAR_TTL
  }

  /** What a read would give with no cache in between. */
  function Fetch(repo: Repository, read: Read): Option<Cached> {
    match read
    case ReadDetail(id) => FetchDetail(repo, id)
    case ReadPopular(limit) => FetchPopular(repo, limit)
  }

  function Answer(s: Shop, read: Read): Option<Cached> {
    var cached := Get(s.entries, KeyOf(read), s.now);
    if cached.Some? then cached else Fetch(s.repo, read)
  }

  function Next(s: Shop, read: Read): Shop {
    var r := Answer(s, read);
    if Get(s.entries, KeyOf(read), s.now).Some? || r.None? then s
    else s.(entries := s.entries[KeyOf(read) := Entry(r.value, s.now + Ttl(read))])
  }

  function Do(s: Shop, step: Step): Shop {
    match step
    case Look(read) => Next(s, read)
    case Tick(elapsed) => s.(now := s.now + elapsed)
    case Change(repo) => s.(repo := repo)
    case Evict(key) => s.(entries := s.entries - {key})
  }

  function Run(s: Shop, steps: seq<Step>): Shop {
    if steps == [] then s else Do(Run(s, steps[..|steps| - 1]), steps[|steps| - 1])
  }

  lemma KeysDiffer(a: Read, b: Read)
    requires KeyOf(a) == KeyOf(b)
    ensures a == b
  {
    match a {
      case ReadDetail(i) => match b { case ReadDetail(j) => KeysApart(i, j); case ReadPopular(j) => KeysApart(i, j); }
      case ReadPopular(i) => match b { case ReadDetail(j) => KeysApart(j, i); case ReadPopular(j) => KeysApart(i, j); }
    }
  }

  /** The instant of the run an entry was fetched at. */
  ghost predicate Fetched(s: Shop, steps: seq<Step>, read: Read, entry: Entry, j: nat) {
    && j <= |steps|
    && Fetch(Run(s, steps[..j]).repo, read) == Some(entry.value)
    && entry.expires == Run(s, steps[..j]).now + Ttl(read)
  }

  lemma {:induction false} EntriesWereFetched(s: Shop, steps: seq<Step>, read: Read) returns (j: nat)
    requires s.entries == map[] && KeyOf(read) in Run(s, steps).entries
    ensures Fetched(s, steps, read, Run(s, steps).entries[KeyOf(read)], j)
  {
    var n, last := |steps| - 1, steps[|steps| - 1];
    var before := Run(s, steps[..n]);
    if last.Look? && KeyOf(last.read) == KeyOf(read) && Do(before, last) != before {
      KeysDiffer(last.read, read);
      j := n;
    } else {
      j := EntriesWereFetched(s, steps[..n], read);
      assert steps[..n][..j] == steps[..j];
    }
  }

  lemma {:induction false} TimeGoesOn(s: Shop, steps: seq<Step>, j: nat)
    requires j <= |steps|
    ensures Run(s, steps[..j]).now <= Run(s, steps).now
  {
    if j < |steps| {
      TimeGoesOn(s, steps[..|steps| - 1], j);
      assert steps[..|steps| - 1][..j] == steps[..j];
    } else {
      assert steps[..j] == steps;
    }
  }

  /**
   * Bounded staleness: after any run from an empty cache, a read answers what the repository would have answered
   * at some instant of the run no longer ago than the read's time to live.
   */
  lemma {:induction false} ReadIsRecent(s: Shop, steps: seq<Step>, read: Read)
    requires s.entries == map[]
    ensures exists j: nat | j <= |steps| ::
              && Answer(Run(s, steps), read) == Fetch(Run(s, steps[..j]).repo, read)
              && 0 <= Run(s, steps).now - Run(s, steps[..j]).now <= Ttl(read)
  {
    var end := Run(s, steps);
    assert steps[..|steps|] == steps;
    if Get(end.entries, KeyOf(read), end.now).Some? {
      var j := EntriesWereFetched(s, steps, read);
      TimeGoesOn(s, steps, j);
      assert Answer(end, read) == Fetch(Run(s, steps[..j]).repo, read);
    } else {
      assert Answer(end, read) == Fetch(Run(s, steps[..|steps|]).repo, read);
    }
  }

  /** When nothing it shows changed for its time to live, a read is exact. */
  lemma {:induction false} QuietReadIsExact(s: Shop, steps: seq<Step>, read: Read)
    requires s.entries == map[]
    requires forall j: nat | j <= |steps| && Run(s, steps).now - Run(s, steps[..j]).now <= Ttl(read) ::
               Fetch(Run(s, steps[..j]).repo, read) == Fetch(Run(s, steps).repo, read)
    ensures Answer(Run(s, steps), read) == Fetch(Run(s, steps).repo, read)
  {
    ReadIsRecent(s, steps, read);
  }

  // ---- How long a read is kept --------------------------------------------------------------------------

  /** Half an hour for a detail, ten minutes for the popular ones, in milliseconds. */
  function Kept(read: Read): int {
    match read
    case ReadDetail(_) => 1_800_000
    case ReadPopular(_) => 600_000
  }

  ghost predicate NotEvicted(steps: seq<Step>, read: Read) {
    forall i | 0 <= i < |steps| :: steps[i] != Evict(KeyOf(read))
  }

  /** An entry stays what it is until it expires, whatever else is read. */
  lemma {:induction false} EntryStays(s: Shop, steps: seq<Step>, read: Read, entry: Entry)
    requires KeyOf(read) in s.entries && s.entries[KeyOf(read)] == entry && NotEvicted(steps, read)
    requires Run(s, steps).now <= entry.expires
    ensures KeyOf(read) in Run(s, steps).entries && Run(s, steps).entries[KeyOf(read)] == entry
  {
    if steps != [] {
      var n := |steps| - 1;
      TimeGoesOn(s, steps, n);
      forall i | 0 <= i < n ensures steps[..n][i] != Evict(KeyOf(read)) { assert steps[..n][i] == steps[i]; }
      EntryStays(s, steps[..n], read, entry);
    }
  }

  /**
   * What a read fetched it goes on answering for its time to live to the millisecond, whatever changes in the
   * repository meanwhile, unless its entry is evicted.
   */
  lemma {:induction false} ReadIsKept(s: Shop, read: Read, steps: seq<Step>)
    requires Get(s.entries, KeyOf(read), s.now) == None && Fetch(s.repo, read).Some? && NotEvicted(steps, read)
    requires Run(Next(s, read), steps).now - s.now <= Kept(read)
    ensures Answer(Run(Next(s, read), steps), read) == Fetch(s.repo, read)
  {
    var after := Next(s, read);
    EntryStays(after, steps, read, after.entries[KeyOf(read)]);
  }

  /** After that, and not before, the next read goes to the repository. */
  lemma {:induction false} ReadIsDropped(s: Shop, read: Read, steps: seq<Step>)
    requires Get(s.entries, KeyOf(read), s.now) == None && Fetch(s.repo, read).Some?
    requires forall i | 0 <= i < |steps| :: steps[i] != Look(read)
    requires Run(Next(s, read), steps).now - s.now > Kept(read)
    ensures Answer(Run(Next(s, read), steps), read) == Fetch(Run(Next(s, read), steps).repo, read)
  {
    var after := Next(s, read);
    EntryOldOrGone(after, steps, read, after.entries[KeyOf(read)]);
  }

  lemma {:induction false} EntryOldOrGone(s: Shop, steps: seq<Step>, read: Read, entry: Entry)
    requires KeyOf(read) in s.entries && s.entries[KeyOf(read)] == entry
    requires forall i | 0 <= i < |steps| :: steps[i] != Look(read)
    ensures KeyOf(read) in Run(s, steps).entries ==> Run(s, steps).entries[KeyOf(read)] == entry
  {
    if steps != [] {
      var n, last := |steps| - 1, steps[|steps| - 1];
      forall i | 0 <= i < n ensures steps[..n][i] != Look(read) { assert steps[..n][i] == steps[i]; }
      EntryOldOrGone(s, steps[..n], read, entry);
      if last.Look? && KeyOf(last.read) == KeyOf(read) { KeysDiffer(last.read, read); }
    }
  }
}
