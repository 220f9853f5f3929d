/**
  Manufacturer and model names to sys_ids: a cache per table, the names given up on, and the
  models whose creation waits for a manufacturer. Whatever the server answers, a name is
  created at most once, and what is left waiting depends only on which devices were seen.
 */
module ReferenceResolver {
  import opened EncodedQuery
  import opened Json
  import opened Sequences
  import opened Text
  import opened Wrappers
  import Retry

  /** "" stands for Python's None in names and sys_ids. Aliases are keyed by folded name. */
  datatype Settings = Settings(lower: string -> string, createManufacturers: bool, createModels: bool, dryRun: bool,
                               manufacturerAliases: map<string, string>, modelAliases: map<string, string>)

  datatype Device = Device(manufacturer: string, model: string)

  datatype Table = CoreCompany | CmdbModel

  /** A create request; `link` is the manufacturer a new model is filed under. */
  datatype Post = Post(table: Table, name: string, link: string)

  datatype CreateAnswer =
    | Refused                              // ServiceNowError: caught
    | Lost                                 // retries exhausted, or a reply that cannot be read: the exception ends the run
    | Stored(sysId: string, name: string)  // the row as ServiceNow kept it

  /** One table's view: folded name to sys_id, and the names given up on as first seen. */
  datatype Shelf = Shelf(cache: map<string, string>, missing: set<string>)

  datatype State = State(companies: Shelf, models: Shelf, awaiting: set<string>, blanks: nat, posts: seq<Post>, stopped: bool)

  function Folded(lower: string -> string, names: set<string>): set<string> {
    set n | n in names :: lower(n)
  }

  function Alias(lower: string -> string, name: string, aliases: map<string, string>): string {
    var k := lower(Strip(name));
    if k in aliases then aliases[k] else name
  }

  /** The name that is looked up for what a device reports. */
  function Key(lower: string -> string, name: string, aliases: map<string, string>): string {
    Strip(if name == "" then name else Alias(lower, name, aliases))
  }

  function ManufacturerKey(c: Settings, d: Device): string { Key(c.lower, d.manufacturer, c.manufacturerAliases) }
  function ModelKey(c: Settings, d: Device): string { Key(c.lower, d.model, c.modelAliases) }

  /** The sys_id a create is worth: none if the row was refused, or stored under another name. */
  function UsableId(lower: string -> string, name: string, answer: CreateAnswer): string {
    if answer.Stored? && lower(Strip(answer.name)) == lower(Strip(name)) then answer.sysId else ""
  }

  function IsBlank(lower: string -> string, name: string, answer: CreateAnswer): nat {
    if answer.Stored? && answer.sysId != "" && UsableId(lower, name, answer) == "" then 1 else 0
  }

  predicate Unknown(lower: string -> string, shelf: Shelf, key: string) {
    key != "" && lower(key) !in shelf.cache && lower(key) !in Folded(lower, shelf.missing)
  }

  datatype Resolution = Resolution(shelf: Shelf, sysId: string, posted: bool, blanks: nat, stopped: bool)

  /** One lookup against one table, creating the record if that is allowed. */
  function Resolve(lower: string -> string, shelf: Shelf, key: string, create: bool, answer: CreateAnswer): Resolution {
    if Unknown(lower, shelf, key) then
      if !create then Resolution(shelf.(missing := shelf.missing + {key}), "", false, 0, false)
      else if answer.Lost? then Resolution(shelf, "", true, 0, true)
      else
        var id := UsableId(lower, key, answer);
        Resolution(if id != "" then shelf.(cache := shelf.cache[lower(key) := id]) else shelf.(missing := shelf.missing + {key}),
                   id, true, IsBlank(lower, key, answer), false)
    else
      Resolution(shelf, if key != "" && lower(key) in shelf.cache then shelf.cache[lower(key)] else "", false, 0, false)
  }

  function Posted(s: State, r: Resolution, p: Post): State {
    s.(posts := if r.posted then s.posts + [p] else s.posts, blanks := s.blanks + r.blanks, stopped := r.stopped)
  }

  /** The manufacturer half of references_for. */
  function ManufacturerResolution(c: Settings, s: State, d: Device, answers: nat -> CreateAnswer): Resolution {
    Resolve(c.lower, s.companies, ManufacturerKey(c, d), c.createManufacturers && !c.dryRun, answers(|s.posts|))
  }

  function AfterManufacturer(c: Settings, s: State, d: Device, answers: nat -> CreateAnswer): State {
    var r := ManufacturerResolution(c, s, d, answers);
    Posted(s, r, Post(CoreCompany, ManufacturerKey(c, d), "")).(companies := r.shelf)
  }

  /** A waiting model gets its second chance: it no longer waits and is no longer given up on. */
  function Retried(c: Settings, s: State, k: string): State {
    if k in s.awaiting
    then s.(awaiting := s.awaiting - {k}, models := s.models.(missing := set m | m in s.models.missing && c.lower(m) != k))
    else s
  }

  function ModelResolution(c: Settings, s: State, key: string, link: string, answers: nat -> CreateAnswer): Resolution {
    Resolve(c.lower, s.models, key, c.createModels && link != "" && !c.dryRun, answers(|s.posts|))
  }

  /** The model half, given the manufacturer's sys_id. */
  function AfterModel(c: Settings, s: State, d: Device, link: string, answers: nat -> CreateAnswer): State {
    var key := ModelKey(c, d);
    var k := c.lower(key);
    var s1 := if c.createModels && k != "" && link != "" then Retried(c, s, k) else s;
    var r := ModelResolution(c, s1, key, link, answers);
    var waits := r.sysId == "" && k != "" && c.createModels && link == "" && k !in Folded(c.lower, s1.models.missing) && !r.stopped;
    Posted(s1, r, Post(CmdbModel, key, link)).(models := r.shelf, awaiting := if waits then s1.awaiting + {k} else s1.awaiting)
  }

  /** The model_id references_for answers with; "" where it gives none. */
  function ModelReference(c: Settings, s: State, d: Device, answers: nat -> CreateAnswer): string {
    var link := ManufacturerResolution(c, s, d, answers).sysId;
    var s1 := AfterManufacturer(c, s, d, answers);
    var k := c.lower(ModelKey(c, d));
    ModelResolution(c, if c.createModels && k != "" && link != "" then Retried(c, s1, k) else s1, ModelKey(c, d), link, answers).sysId
  }

  /** references_for on one device. A run that has stopped stays stopped. */
  function Step(c: Settings, s: State, d: Device, answers: nat -> CreateAnswer): State {
    if s.stopped then s
    else
      var link := ManufacturerResolution(c, s, d, answers).sysId;
      var s1 := AfterManufacturer(c, s, d, answers);
      if s1.stopped then s1 else AfterModel(c, s1, d, link, answers)
  }

  function Primed(companies: map<string, string>, models: map<string, string>): State {
    State(Shelf(companies, {}), Shelf(models, {}), {}, 0, [], false)
  }

  /** The whole run: answers(n) is what the server says to the n-th create. */
  function Run(c: Settings, s0: State, ds: seq<Device>, answers: nat -> CreateAnswer): State {
    if ds == [] then s0 else Step(c, Run(c, s0, ds[..|ds| - 1], answers), ds[|ds| - 1], answers)
  }

  // ---- What every device keeps ---------------------------------------------

  ghost predicate ShelfOk(lower: string -> string, sh: Shelf) {
    && sh.cache.Keys !! Folded(lower, sh.missing)
    && (forall k | k in sh.cache :: sh.cache[k] != "")
  }

  function ShelfOf(s: State, t: Table): Shelf { if t.CoreCompany? then s.companies else s.models }

  /** The folded names a create was ever sent for. */
  function Attempted(c: Settings, s: State, t: Table): set<string> {
    set p | p in s.posts && p.table == t :: c.lower(p.name)
  }

  /** No two create requests for one table carry the same folded name. */
  ghost predicate NamesOnce(c: Settings, posts: seq<Post>) {
    forall i, j | 0 <= i < j < |posts| && posts[i].table == posts[j].table :: c.lower(posts[i].name) != c.lower(posts[j].name)
  }

  /** True of every create log, stopped run or not. */
  ghost predicate PostsOk(c: Settings, s0: State, s: State) {
    && NamesOnce(c, s.posts)
    && (forall p | p in s.posts :: c.lower(p.name) !in ShelfOf(s0, p.table).cache)
    && (forall p | p in s.posts && p.table.CmdbModel? :: p.link != "" && p.link in s.companies.cache.Values)
    && (forall p | p in s.posts :: !c.dryRun && (if p.table.CoreCompany? then c.createManufacturers else c.createModels))
  }

  /** Where a name can be once it was attempted: resolved, or given up on for good. */
  ghost predicate Inv(c: Settings, s0: State, s: State) {
    && ShelfOk(c.lower, s.companies) && ShelfOk(c.lower, s.models)
    && s.awaiting <= Folded(c.lower, s.models.missing)
    && Attempted(c, s, CoreCompany) <= s.companies.cache.Keys + Folded(c.lower, s.companies.missing)
    && Attempted(c, s, CmdbModel) <= s.models.cache.Keys + (Folded(c.lower, s.models.missing) - s.awaiting)
    && s0.companies.cache.Keys <= s.companies.cache.Keys <= s0.companies.cache.Keys + Attempted(c, s, CoreCompany)
    && s0.models.cache.Keys <= s.models.cache.Keys <= s0.models.cache.Keys + Attempted(c, s, CmdbModel)
  }

  ghost predicate Sound(c: Settings, s0: State, s: State) {
    PostsOk(c, s0, s) && (!s.stopped ==> Inv(c, s0, s))
  }

  lemma ManufacturerKeepsSound(c: Settings, s0: State, s: State, d: Device, answers: nat -> CreateAnswer)
    requires Folds(c.lower) && Sound(c, s0, s) && !s.stopped
    ensures Sound(c, s0, AfterManufacturer(c, s, d, answers))
    ensures var s1 := AfterManufacturer(c, s, d, answers); var link := ManufacturerResolution(c, s, d, answers).sysId;
            && s1.models == s.models && s1.awaiting == s.awaiting
            && (!s1.stopped && link != "" ==> link in s1.companies.cache.Values)
  {
    var key := ManufacturerKey(c, d);
    var r := ManufacturerResolution(c, s, d, answers);
    var s1 := AfterManufacturer(c, s, d, answers);
    AppendedPost(c, s, s1, Post(CoreCompany, key, ""), r.posted);
    ResolveKeepsShelf(c.lower, s.companies, key, c.createManufacturers && !c.dryRun, answers(|s.posts|));
    if r.posted { NewPostOk(c, s0, s, s1, Post(CoreCompany, key, "")); }
  }

  /** Resolving keeps what was known, and puts a new name in exactly one of the two places. */
  lemma ResolveKeepsShelf(lower: string -> string, sh: Shelf, key: string, create: bool, answer: CreateAnswer)
    requires ShelfOk(lower, sh)
    ensures var r := Resolve(lower, sh, key, create, answer);
            && ShelfOk(lower, r.shelf)
            && sh.cache.Values <= r.shelf.cache.Values
            && (r.sysId != "" <==> key != "" && lower(key) in r.shelf.cache)
            && (r.sysId != "" ==> r.sysId in r.shelf.cache.Values)
            && r.shelf.cache.Keys == sh.cache.Keys + (if r.posted && r.sysId != "" then {lower(key)} else {})
            && Folded(lower, r.shelf.missing) == Folded(lower, sh.missing)
                 + (if Unknown(lower, sh, key) && r.sysId == "" && !r.stopped then {lower(key)} else {})
            && (r.posted ==> create && Unknown(lower, sh, key))
  {
    var r := Resolve(lower, sh, key, create, answer);
    assert Folded(lower, sh.missing + {key}) == Folded(lower, sh.missing) + {lower(key)};
    forall v | v in sh.cache.Values ensures v in r.shelf.cache.Values {
      var k :| k in sh.cache && sh.cache[k] == v;
      assert k in r.shelf.cache && r.shelf.cache[k] == v;
    }
    if r.sysId != "" { assert r.shelf.cache[lower(key)] == r.sysId; }
  }

  /** A create for a name that was neither known nor attempted keeps the log in order. */
  lemma NewPostOk(c: Settings, s0: State, s: State, s1: State, p: Post)
    requires PostsOk(c, s0, s) && s1.posts == s.posts + [p]
    requires s.companies.cache.Values <= s1.companies.cache.Values
    requires c.lower(p.name) !in Attempted(c, s, p.table) && c.lower(p.name) !in ShelfOf(s0, p.table).cache
    requires p.table.CmdbModel? ==> p.link != "" && p.link in s1.companies.cache.Values
    requires !c.dryRun && if p.table.CoreCompany? then c.createManufacturers else c.createModels
    ensures PostsOk(c, s0, s1)
  {
    forall i, j | 0 <= i < j < |s1.posts| && s1.posts[i].table == s1.posts[j].table
      ensures c.lower(s1.posts[i].name) != c.lower(s1.posts[j].name)
    {
      if j == |s.posts| {
        assert s.posts[i] in s.posts;
      }
    }
  }

  lemma AppendedPost(c: Settings, s: State, s1: State, p: Post, posted: bool)
    requires s1.posts == if posted then s.posts + [p] else s.posts
    ensures Attempted(c, s1, CoreCompany) == Attempted(c, s, CoreCompany) + (if posted && p.table.CoreCompany? then {c.lower(p.name)} else {})
    ensures Attempted(c, s1, CmdbModel) == Attempted(c, s, CmdbModel) + (if posted && p.table.CmdbModel? then {c.lower(p.name)} else {})
  {
    assert forall q :: q in s1.posts <==> q in s.posts || (posted && q == p);
  }

  lemma RetryKeepsSound(c: Settings, s0: State, s: State, k: string)
    requires Sound(c, s0, s) && !s.stopped
    ensures Sound(c, s0, Retried(c, s, k)) && Retried(c, s, k).companies == s.companies
    ensures Folded(c.lower, Retried(c, s, k).models.missing)
            == if k in s.awaiting then Folded(c.lower, s.models.missing) - {k} else Folded(c.lower, s.models.missing)
  {}

  lemma ModelKeepsSound(c: Settings, s0: State, s: State, d: Device, link: string, answers: nat -> CreateAnswer)
    requires Folds(c.lower) && Sound(c, s0, s) && !s.stopped
    requires link != "" ==> link in s.companies.cache.Values
    ensures Sound(c, s0, AfterModel(c, s, d, link, answers))
    ensures AfterModel(c, s, d, link, answers).companies == s.companies
  {
    ModelKeepsPosts(c, s0, s, d, link, answers);
    ModelKeepsInv(c, s0, s, d, link, answers);
  }

  lemma ModelKeepsPosts(c: Settings, s0: State, s: State, d: Device, link: string, answers: nat -> CreateAnswer)
    requires Folds(c.lower) && Sound(c, s0, s) && !s.stopped
    requires link != "" ==> link in s.companies.cache.Values
    ensures PostsOk(c, s0, AfterModel(c, s, d, link, answers))
  {
    var key := ModelKey(c, d);
    var k := c.lower(key);
    RetryKeepsSound(c, s0, s, k);
    var s1 := if c.createModels && k != "" && link != "" then Retried(c, s, k) else s;
    ResolveKeepsShelf(c.lower, s1.models, key, c.createModels && link != "" && !c.dryRun, answers(|s1.posts|));
    if ModelResolution(c, s1, key, link, answers).posted {
      NewPostOk(c, s0, s1, AfterModel(c, s, d, link, answers), Post(CmdbModel, key, link));
    }
  }

  lemma ModelKeepsInv(c: Settings, s0: State, s: State, d: Device, link: string, answers: nat -> CreateAnswer)
    requires Folds(c.lower) && Sound(c, s0, s) && !s.stopped
    ensures !AfterModel(c, s, d, link, answers).stopped ==> Inv(c, s0, AfterModel(c, s, d, link, answers))
  {
    var key := ModelKey(c, d);
    var k := c.lower(key);
    RetryKeepsSound(c, s0, s, k);
    var s1 := if c.createModels && k != "" && link != "" then Retried(c, s, k) else s;
    var r := ModelResolution(c, s1, key, link, answers);
    AppendedPost(c, s1, AfterModel(c, s, d, link, answers), Post(CmdbModel, key, link), r.posted);
    ResolveKeepsShelf(c.lower, s1.models, key, c.createModels && link != "" && !c.dryRun, answers(|s1.posts|));
  }

  lemma StepKeepsSound(c: Settings, s0: State, s: State, d: Device, answers: nat -> CreateAnswer)
    requires Folds(c.lower) && Sound(c, s0, s)
    ensures Sound(c, s0, Step(c, s, d, answers))
  {
    if !s.stopped {
      ManufacturerKeepsSound(c, s0, s, d, answers);
      var s1 := AfterManufacturer(c, s, d, answers);
      if !s1.stopped {
        ModelKeepsSound(c, s0, s1, d, ManufacturerResolution(c, s, d, answers).sysId, answers);
      }
    }
  }

  ghost predicate IsPrimed(s0: State) {
    s0 == Primed(s0.companies.cache, s0.models.cache) && ShelfOk(s => s, s0.companies) && ShelfOk(s => s, s0.models)
  }

  function Cached(lower: string -> string, cache: map<string, string>, key: string): string {
    if key != "" && lower(key) in cache then cache[lower(key)] else ""
  }

  /** A corollary of the step: what a device is given is what the caches hold for its two names once it has been looked up. */
  lemma ReferencesAreCached(c: Settings, s0: State, s: State, d: Device, answers: nat -> CreateAnswer)
    requires Folds(c.lower) && Sound(c, s0, s) && !s.stopped && !Step(c, s, d, answers).stopped
    ensures var s' := Step(c, s, d, answers);
            && ManufacturerResolution(c, s, d, answers).sysId == Cached(c.lower, s'.companies.cache, ManufacturerKey(c, d))
            && ModelReference(c, s, d, answers) == Cached(c.lower, s'.models.cache, ModelKey(c, d))
  {
    CompanyIsCached(c, s, d, answers);
    ModelIsCached(c, AfterManufacturer(c, s, d, answers), d, ManufacturerResolution(c, s, d, answers).sysId, answers);
  }

  lemma CompanyIsCached(c: Settings, s: State, d: Device, answers: nat -> CreateAnswer)
    requires Folds(c.lower) && ShelfOk(c.lower, s.companies) && !AfterManufacturer(c, s, d, answers).stopped
    ensures ManufacturerResolution(c, s, d, answers).sysId
            == Cached(c.lower, AfterManufacturer(c, s, d, answers).companies.cache, ManufacturerKey(c, d))
  {}

  lemma ModelIsCached(c: Settings, s: State, d: Device, link: string, answers: nat -> CreateAnswer)
    requires Folds(c.lower) && ShelfOk(c.lower, s.models) && !AfterModel(c, s, d, link, answers).stopped
    ensures var k := c.lower(ModelKey(c, d));
            var t := if c.createModels && k != "" && link != "" then Retried(c, s, k) else s;
            ModelResolution(c, t, ModelKey(c, d), link, answers).sysId
            == Cached(c.lower, AfterModel(c, s, d, link, answers).models.cache, ModelKey(c, d))
  {}


  lemma {:induction false} RunIsSound(c: Settings, s0: State, ds: seq<Device>, answers: nat -> CreateAnswer)
    requires Folds(c.lower) && IsPrimed(s0)
    ensures Sound(c, s0, Run(c, s0, ds, answers))
  {
    if ds != [] {
      RunIsSound(c, s0, ds[..|ds| - 1], answers);
      StepKeepsSound(c, s0, Run(c, s0, ds[..|ds| - 1], answers), ds[|ds| - 1], answers);
    }
  }

  // ---- Main results ---------------------------------------------------------

  /**
    Whatever devices come in whatever order, and whatever the server answers, a folded name
    is sent to a table at most once, never when the table already had it, never in a dry run.
   */
  lemma {:induction false} CreatesAtMostOnce(c: Settings, companies: map<string, string>, models: map<string, string>,
                                             ds: seq<Device>, answers: nat -> CreateAnswer)
    requires Folds(c.lower) && "" !in companies.Values && "" !in models.Values
    ensures var posts := Run(c, Primed(companies, models), ds, answers).posts;
            && NamesOnce(c, posts)
            && (forall p | p in posts :: c.lower(p.name) !in (if p.table.CoreCompany? then companies else models))
            && (c.dryRun ==> posts == [])
  {
    RunIsSound(c, Primed(companies, models), ds, answers);
    var posts := Run(c, Primed(companies, models), ds, answers).posts;
    assert posts != [] ==> posts[0] in posts;
  }

  /** A model is only ever created under a manufacturer that resolved to a record. */
  lemma {:induction false} ModelsAreLinked(c: Settings, companies: map<string, string>, models: map<string, string>,
                                           ds: seq<Device>, answers: nat -> CreateAnswer)
    requires Folds(c.lower) && "" !in companies.Values && "" !in models.Values
    ensures var s := Run(c, Primed(companies, models), ds, answers);
            forall p | p in s.posts && p.table.CmdbModel? :: p.link != "" && p.link in s.companies.cache.Values
  {
    RunIsSound(c, Primed(companies, models), ds, answers);
  }

  // ---- What is left waiting ---------------------------------------------------

  function Named(c: Settings, ds: seq<Device>): set<string> {
    set d | d in ds && c.lower(ModelKey(c, d)) != "" :: c.lower(ModelKey(c, d))
  }

  function NamedCompanies(c: Settings, ds: seq<Device>): set<string> {
    set d | d in ds && c.lower(ManufacturerKey(c, d)) != "" :: c.lower(ManufacturerKey(c, d))
  }

  /** Whether a device's manufacturer has a record; the same at the device's turn as at the end. */
  predicate HasManufacturer(c: Settings, companies: map<string, string>, d: Device) {
    ManufacturerKey(c, d) != "" && c.lower(ManufacturerKey(c, d)) in companies
  }

  /** Some device naming model k has a manufacturer with a record. */
  predicate Backed(c: Settings, companies: map<string, string>, ds: seq<Device>, k: string) {
    exists d | d in ds :: c.lower(ModelKey(c, d)) == k && HasManufacturer(c, companies, d)
  }

  lemma NamedSnoc(c: Settings, ds: seq<Device>, d: Device)
    ensures Named(c, ds + [d]) == Named(c, ds) + (if c.lower(ModelKey(c, d)) != "" then {c.lower(ModelKey(c, d))} else {})
    ensures NamedCompanies(c, ds + [d]) == NamedCompanies(c, ds) + (if c.lower(ManufacturerKey(c, d)) != "" then {c.lower(ManufacturerKey(c, d))} else {})
    ensures forall m, k :: Backed(c, m, ds + [d], k) <==> Backed(c, m, ds, k) || (c.lower(ModelKey(c, d)) == k && HasManufacturer(c, m, d))
  {
    assert forall x :: x in ds + [d] <==> x in ds || x == d;
  }

  /** A later device never changes whether an earlier one's manufacturer has a record. */
  lemma ManufacturersAreStable(c: Settings, s: State, ds: seq<Device>, d: Device, answers: nat -> CreateAnswer)
    requires Folds(c.lower) && ShelfOk(c.lower, s.companies) && !s.stopped
    requires NamedCompanies(c, ds) <= s.companies.cache.Keys + Folded(c.lower, s.companies.missing)
    requires Folded(c.lower, s.companies.missing) <= NamedCompanies(c, ds)
    requires !AfterManufacturer(c, s, d, answers).stopped
    ensures var s1 := AfterManufacturer(c, s, d, answers);
            && (forall x | x in ds :: HasManufacturer(c, s1.companies.cache, x) <==> HasManufacturer(c, s.companies.cache, x))
            && (HasManufacturer(c, s1.companies.cache, d) <==> ManufacturerResolution(c, s, d, answers).sysId != "")
            && NamedCompanies(c, ds + [d]) <= s1.companies.cache.Keys + Folded(c.lower, s1.companies.missing)
            && Folded(c.lower, s1.companies.missing) <= NamedCompanies(c, ds + [d])
  {
    NamedSnoc(c, ds, d);
    var key := ManufacturerKey(c, d);
    ResolveKeepsShelf(c.lower, s.companies, key, c.createManufacturers && !c.dryRun, answers(|s.posts|));
    forall x | x in ds
      ensures ManufacturerKey(c, x) != "" ==> c.lower(ManufacturerKey(c, x)) in NamedCompanies(c, ds)
    {}
  }

  /** What the model half does to a name other than the device's own: nothing. */
  lemma OtherModelsUntouched(c: Settings, s: State, d: Device, link: string, answers: nat -> CreateAnswer, x: string)
    requires ShelfOk(c.lower, s.models) && x != c.lower(ModelKey(c, d))
    ensures var s2 := AfterModel(c, s, d, link, answers);
            && (x in s2.awaiting <==> x in s.awaiting)
            && (x in s2.models.cache <==> x in s.models.cache)
            && (x in Folded(c.lower, s2.models.missing) <==> x in Folded(c.lower, s.models.missing))
            && (x in Attempted(c, s2, CmdbModel) <==> x in Attempted(c, s, CmdbModel))
  {
    var key := ModelKey(c, d);
    var k := c.lower(key);
    var t := if c.createModels && k != "" && link != "" then Retried(c, s, k) else s;
    var r := ModelResolution(c, t, key, link, answers);
    AppendedPost(c, t, AfterModel(c, s, d, link, answers), Post(CmdbModel, key, link), r.posted);
    ResolveKeepsShelf(c.lower, t.models, key, c.createModels && link != "" && !c.dryRun, answers(|t.posts|));
  }

  /** What it does to the device's own name, by where that name was before. */
  lemma OwnModelMoves(c: Settings, s: State, d: Device, link: string, answers: nat -> CreateAnswer)
    requires Folds(c.lower) && ShelfOk(c.lower, s.models) && s.awaiting <= Folded(c.lower, s.models.missing)
    requires ModelKey(c, d) != "" && !AfterModel(c, s, d, link, answers).stopped && (!c.createModels ==> s.awaiting == {})
    ensures var s2 := AfterModel(c, s, d, link, answers); var k := c.lower(ModelKey(c, d));
            var gone := k in Folded(c.lower, s.models.missing);
            var retry := c.createModels && link != "" && (k in s.awaiting || !(gone || k in s.models.cache));
            && (k in s2.models.cache || k in Folded(c.lower, s2.models.missing))
            && (k in s2.awaiting <==> k !in s2.models.cache && c.createModels && link == "" && (k in s.awaiting || !gone))
            && (k in Attempted(c, s2, CmdbModel) <==> k in Attempted(c, s, CmdbModel) || (retry && !c.dryRun))
            && (k in s2.models.cache ==> k in s.models.cache || k in Attempted(c, s2, CmdbModel))
            && (k in s.models.cache ==> k in s2.models.cache)
  {
    OwnModelAttempt(c, s, d, link, answers);
    var key := ModelKey(c, d);
    var k := c.lower(key);
    var t := if c.createModels && k != "" && link != "" then Retried(c, s, k) else s;
    ResolveKeepsShelf(c.lower, t.models, key, c.createModels && link != "" && !c.dryRun, answers(|t.posts|));
    assert Folded(c.lower, t.models.missing) == Folded(c.lower, s.models.missing) - (if t.awaiting == s.awaiting then {} else {k});
  }

  /** A model is attempted when it is unknown, or gets its second chance, and may be created. */
  lemma OwnModelAttempt(c: Settings, s: State, d: Device, link: string, answers: nat -> CreateAnswer)
    requires Folds(c.lower) && s.awaiting <= Folded(c.lower, s.models.missing) && ShelfOk(c.lower, s.models)
    requires ModelKey(c, d) != "" && !AfterModel(c, s, d, link, answers).stopped && (!c.createModels ==> s.awaiting == {})
    ensures var s2 := AfterModel(c, s, d, link, answers); var k := c.lower(ModelKey(c, d));
            var retry := c.createModels && link != "" && (k in s.awaiting || !(k in Folded(c.lower, s.models.missing) || k in s.models.cache));
            k in Attempted(c, s2, CmdbModel) <==> k in Attempted(c, s, CmdbModel) || (retry && !c.dryRun)
  {
    var key := ModelKey(c, d);
    var k := c.lower(key);
    var t := if c.createModels && k != "" && link != "" then Retried(c, s, k) else s;
    var r := ModelResolution(c, t, key, link, answers);
    AppendedPost(c, t, AfterModel(c, s, d, link, answers), Post(CmdbModel, key, link), r.posted);
    assert Folded(c.lower, t.models.missing) == Folded(c.lower, s.models.missing) - (if t.awaiting == s.awaiting then {} else {k});
  }

  /** The account of one model name: looked up iff named, and exactly when it waits or was attempted. */
  ghost predicate ExactAt(c: Settings, s0: State, s: State, companies: map<string, string>, ds: seq<Device>, k: string) {
    var backed := Backed(c, companies, ds, k);
    && (k in Named(c, ds) ==> k in s.models.cache || k in Folded(c.lower, s.models.missing))
    && (k in Folded(c.lower, s.models.missing) ==> k in Named(c, ds))
    && (k in s.awaiting <==> c.createModels && k in Named(c, ds) && k !in s.models.cache && !backed)
    && (k in Attempted(c, s, CmdbModel) <==>
          c.createModels && !c.dryRun && k in Named(c, ds) && k !in s0.models.cache && backed)
  }

  lemma ModelStepExact(c: Settings, s0: State, s: State, companies: map<string, string>, ds: seq<Device>, d: Device,
                       link: string, answers: nat -> CreateAnswer, k: string)
    requires Folds(c.lower) && !s.stopped && Inv(c, s0, s) && ExactAt(c, s0, s, companies, ds, k)
    requires !c.createModels ==> s.awaiting == {}
    requires HasManufacturer(c, companies, d) <==> link != ""
    requires !AfterModel(c, s, d, link, answers).stopped
    ensures ExactAt(c, s0, AfterModel(c, s, d, link, answers), companies, ds + [d], k)
  {
    NamedSnoc(c, ds, d);
    var own := c.lower(ModelKey(c, d));
    if k != own {
      OtherModelsUntouched(c, s, d, link, answers, k);
    } else if own != "" {
      assert Backed(c, companies, ds, k) ==> k in Named(c, ds);
      OwnModelMoves(c, s, d, link, answers);
    } else {
      assert AfterModel(c, s, d, link, answers) == s;
    }
  }

  ghost predicate Exact(c: Settings, s0: State, s: State, ds: seq<Device>) {
    && NamedCompanies(c, ds) <= s.companies.cache.Keys + Folded(c.lower, s.companies.missing)
    && Folded(c.lower, s.companies.missing) <= NamedCompanies(c, ds)
    && forall k :: ExactAt(c, s0, s, s.companies.cache, ds, k)
  }

  lemma StepIsExact(c: Settings, s0: State, s: State, ds: seq<Device>, d: Device, answers: nat -> CreateAnswer)
    requires Folds(c.lower) && Sound(c, s0, s) && !s.stopped && Exact(c, s0, s, ds) && !Step(c, s, d, answers).stopped
    ensures Exact(c, s0, Step(c, s, d, answers), ds + [d])
  {
    var link := ManufacturerResolution(c, s, d, answers).sysId;
    var s1 := AfterManufacturer(c, s, d, answers);
    ManufacturerKeepsSound(c, s0, s, d, answers);
    ModelKeepsSound(c, s0, s1, d, link, answers);
    ManufacturersAreStable(c, s, ds, d, answers);
    AppendedPost(c, s, s1, Post(CoreCompany, ManufacturerKey(c, d), ""), ManufacturerResolution(c, s, d, answers).posted);
    forall k ensures ExactAt(c, s0, Step(c, s, d, answers), s1.companies.cache, ds + [d], k) {
      assert ExactAt(c, s0, s, s.companies.cache, ds, k);
      assert ExactAt(c, s0, s1, s1.companies.cache, ds, k);
      if x :| x in s.awaiting { assert ExactAt(c, s0, s, s.companies.cache, ds, x); }
      ModelStepExact(c, s0, s1, s1.companies.cache, ds, d, link, answers, k);
    }
  }

  lemma {:induction false} RunIsExact(c: Settings, s0: State, ds: seq<Device>, answers: nat -> CreateAnswer)
    requires Folds(c.lower) && IsPrimed(s0) && !Run(c, s0, ds, answers).stopped
    ensures Exact(c, s0, Run(c, s0, ds, answers), ds)
  {
    if ds != [] {
      var front, d := ds[..|ds| - 1], ds[|ds| - 1];
      assert ds == front + [d];
      var s := Run(c, s0, front, answers);
      RunIsSound(c, s0, front, answers);
      RunIsExact(c, s0, front, answers);
      StepIsExact(c, s0, s, front, d, answers);
    }
  }

  /**
    After any devices in any order: a model waits iff creation is on, some device named it,
    the table did not have it at the start, and no device naming it had a manufacturer with a
    record; it was attempted iff one did (and this is no dry run).
   */
  lemma {:induction false} AwaitingMeansNoManufacturer(c: Settings, companies: map<string, string>, models: map<string, string>,
                                                       ds: seq<Device>, answers: nat -> CreateAnswer, k: string)
    requires Folds(c.lower) && "" !in companies.Values && "" !in models.Values
    requires !Run(c, Primed(companies, models), ds, answers).stopped
    ensures var s := Run(c, Primed(companies, models), ds, answers);
            var wanted := c.createModels && k in Named(c, ds) && k !in models;
            && (k in s.awaiting <==> wanted && !Backed(c, s.companies.cache, ds, k))
            && (k in Attempted(c, s, CmdbModel) <==> wanted && !c.dryRun && Backed(c, s.companies.cache, ds, k))
  {
    var s0 := Primed(companies, models);
    RunIsSound(c, s0, ds, answers);
    RunIsExact(c, s0, ds, answers);
    var s := Run(c, s0, ds, answers);
    assert ExactAt(c, s0, s, s.companies.cache, ds, k);
  }

  /** Whether a company create yields a record depends on the folded name alone. */
  ghost predicate Grants(c: Settings, s: State, answers: nat -> CreateAnswer, grants: string -> bool) {
    forall i | 0 <= i < |s.posts| && s.posts[i].table.CoreCompany? ::
      UsableId(c.lower, s.posts[i].name, answers(i)) != "" <==> grants(c.lower(s.posts[i].name))
  }

  lemma StepPostsPrefix(c: Settings, s: State, d: Device, answers: nat -> CreateAnswer)
    ensures s.posts <= Step(c, s, d, answers).posts
    ensures !s.stopped && ManufacturerResolution(c, s, d, answers).posted ==>
              |s.posts| < |Step(c, s, d, answers).posts|
              && Step(c, s, d, answers).posts[|s.posts|] == Post(CoreCompany, ManufacturerKey(c, d), "")
  {}

  /** The companies known are those known before and those named whose creation the server grants. */
  ghost predicate KnownAre(c: Settings, s0: State, s: State, ds: seq<Device>, grants: string -> bool) {
    forall k :: k in s.companies.cache <==>
      k in s0.companies.cache || (c.createManufacturers && !c.dryRun && k in NamedCompanies(c, ds) && grants(k))
  }

  /** Under such a server the companies known at the end depend only on which were named. */
  lemma {:induction false} CompaniesExact(c: Settings, s0: State, ds: seq<Device>, answers: nat -> CreateAnswer, grants: string -> bool)
    requires Folds(c.lower) && IsPrimed(s0) && !Run(c, s0, ds, answers).stopped
    requires Grants(c, Run(c, s0, ds, answers), answers, grants)
    ensures KnownAre(c, s0, Run(c, s0, ds, answers), ds, grants)
  {
    if ds != [] {
      var front, d := ds[..|ds| - 1], ds[|ds| - 1];
      assert ds == front + [d];
      var s := Run(c, s0, front, answers);
      assert Run(c, s0, ds, answers) == Step(c, s, d, answers);
      CompaniesReady(c, s0, front, answers);
      GrantsEarlier(c, s, d, answers, grants);
      CompaniesExact(c, s0, front, answers, grants);
      CompaniesStep(c, s0, s, front, d, answers, grants);
    }
  }

  lemma CompaniesReady(c: Settings, s0: State, ds: seq<Device>, answers: nat -> CreateAnswer)
    requires Folds(c.lower) && IsPrimed(s0) && !Run(c, s0, ds, answers).stopped
    ensures ShelfOk(c.lower, Run(c, s0, ds, answers).companies) && Exact(c, s0, Run(c, s0, ds, answers), ds)
  {
    RunIsSound(c, s0, ds, answers);
    RunIsExact(c, s0, ds, answers);
  }

  lemma CompaniesStep(c: Settings, s0: State, s: State, front: seq<Device>, d: Device, answers: nat -> CreateAnswer, grants: string -> bool)
    requires Folds(c.lower) && !s.stopped && !Step(c, s, d, answers).stopped && Grants(c, Step(c, s, d, answers), answers, grants)
    requires ShelfOk(c.lower, s.companies) && Exact(c, s0, s, front)
    requires KnownAre(c, s0, s, front, grants)
    ensures KnownAre(c, s0, Step(c, s, d, answers), front + [d], grants)
  {
    GrantsEarlier(c, s, d, answers, grants);
    CompanyStep(c, s, d, answers, grants);
    var s' := Step(c, s, d, answers);
    forall k ensures k in s'.companies.cache <==>
              k in s0.companies.cache || (c.createManufacturers && !c.dryRun && k in NamedCompanies(c, front + [d]) && grants(k))
    {
      CompanyAt(c, s0, s, s', front, d, grants, k);
    }
  }

  lemma GrantsEarlier(c: Settings, s: State, d: Device, answers: nat -> CreateAnswer, grants: string -> bool)
    requires Grants(c, Step(c, s, d, answers), answers, grants)
    ensures Grants(c, s, answers, grants)
    ensures !s.stopped && ManufacturerResolution(c, s, d, answers).posted ==>
              (UsableId(c.lower, ManufacturerKey(c, d), answers(|s.posts|)) != "" <==> grants(c.lower(ManufacturerKey(c, d))))
  {
    StepPostsPrefix(c, s, d, answers);
    var next := Step(c, s, d, answers).posts;
    assert forall i | 0 <= i < |s.posts| :: next[i] == s.posts[i];
  }

  lemma CompanyAt(c: Settings, s0: State, s: State, s': State, front: seq<Device>, d: Device, grants: string -> bool, k: string)
    requires Folds(c.lower) && ShelfOk(c.lower, s.companies) && Exact(c, s0, s, front)
    requires var key := ManufacturerKey(c, d);
             s'.companies.cache.Keys == s.companies.cache.Keys
               + (if Unknown(c.lower, s.companies, key) && c.createManufacturers && !c.dryRun && grants(c.lower(key)) then {c.lower(key)} else {})
    requires k in s.companies.cache <==>
               k in s0.companies.cache || (c.createManufacturers && !c.dryRun && k in NamedCompanies(c, front) && grants(k))
    ensures k in s'.companies.cache <==>
              k in s0.companies.cache || (c.createManufacturers && !c.dryRun && k in NamedCompanies(c, front + [d]) && grants(k))
  {
    NamedSnoc(c, front, d);
    if k != c.lower(ManufacturerKey(c, d)) {
      assert k in s'.companies.cache <==> k in s.companies.cache;
    }
  }

  lemma CompanyStep(c: Settings, s: State, d: Device, answers: nat -> CreateAnswer, grants: string -> bool)
    requires Folds(c.lower) && !s.stopped && !Step(c, s, d, answers).stopped && ShelfOk(c.lower, s.companies)
    requires ManufacturerResolution(c, s, d, answers).posted ==>
               (UsableId(c.lower, ManufacturerKey(c, d), answers(|s.posts|)) != "" <==> grants(c.lower(ManufacturerKey(c, d))))
    ensures var k := c.lower(ManufacturerKey(c, d));
            Step(c, s, d, answers).companies.cache.Keys == s.companies.cache.Keys
              + (if Unknown(c.lower, s.companies, ManufacturerKey(c, d)) && c.createManufacturers && !c.dryRun && grants(k) then {k} else {})
  {
    var s1 := AfterManufacturer(c, s, d, answers);
    assert AfterModel(c, s1, d, ManufacturerResolution(c, s, d, answers).sysId, answers).companies == s1.companies;
  }

  /** What waits and what is attempted do not depend on the order of devices, nor on the model answers. */
  lemma {:induction false} OrderDoesNotMatter(c: Settings, companies: map<string, string>, models: map<string, string>,
                                              ds: seq<Device>, es: seq<Device>,
                                              a: nat -> CreateAnswer, b: nat -> CreateAnswer, grants: string -> bool)
    requires Folds(c.lower) && "" !in companies.Values && "" !in models.Values
    requires forall d :: d in ds <==> d in es
    requires var s, t := Run(c, Primed(companies, models), ds, a), Run(c, Primed(companies, models), es, b);
             !s.stopped && !t.stopped && Grants(c, s, a, grants) && Grants(c, t, b, grants)
    ensures var s, t := Run(c, Primed(companies, models), ds, a), Run(c, Primed(companies, models), es, b);
            && s.awaiting == t.awaiting && Attempted(c, s, CmdbModel) == Attempted(c, t, CmdbModel)
            && s.companies.cache.Keys == t.companies.cache.Keys
  {
    var s0 := Primed(companies, models);
    var s, t := Run(c, s0, ds, a), Run(c, s0, es, b);
    CompaniesExact(c, s0, ds, a, grants);
    CompaniesExact(c, s0, es, b, grants);
    assert NamedCompanies(c, ds) == NamedCompanies(c, es) && Named(c, ds) == Named(c, es);
    forall k
      ensures k in s.awaiting <==> k in t.awaiting
      ensures k in Attempted(c, s, CmdbModel) <==> k in Attempted(c, t, CmdbModel)
    {
      AwaitingMeansNoManufacturer(c, companies, models, ds, a, k);
      AwaitingMeansNoManufacturer(c, companies, models, es, b, k);
      assert Backed(c, s.companies.cache, ds, k) <==> Backed(c, t.companies.cache, es, k);
    }
  }

  // ---- Priming the caches ------------------------------------------------------

  const LOOKUP_CHUNK_SIZE: nat := 40

  datatype Record = Record(name: string, sysId: string)

  /** The first record under each folded name, skipping records without a name or a sys_id. */
  function Found(lower: string -> string, rows: seq<Record>): map<string, string> {
    if rows == [] then map[]
    else
      var before := Found(lower, rows[..|rows| - 1]);
      var row := rows[|rows| - 1];
      var name := lower(Strip(row.name));
      if name != "" && row.sysId != "" && name !in before then before[name := row.sysId] else before
  }

  lemma {:induction false} FoundIff(lower: string -> string, rows: seq<Record>, k: string)
    ensures k in Found(lower, rows) <==>
              k != "" && exists i | 0 <= i < |rows| :: lower(Strip(rows[i].name)) == k && rows[i].sysId != ""
  {
    if rows != [] {
      var n := |rows| - 1;
      FoundIff(lower, rows[..n], k);
      assert forall i | 0 <= i < n :: rows[..n][i] == rows[i];
    }
  }

  lemma {:induction false} FirstFound(lower: string -> string, rows: seq<Record>, k: string) returns (i: nat)
    requires k in Found(lower, rows)
    ensures i < |rows| && lower(Strip(rows[i].name)) == k && rows[i].sysId == Found(lower, rows)[k] != ""
    ensures forall j | 0 <= j < i :: lower(Strip(rows[j].name)) == k ==> rows[j].sysId == ""
  {
    var n := |rows| - 1;
    if k in Found(lower, rows[..n]) {
      i := FirstFound(lower, rows[..n], k);
      assert forall j | 0 <= j < n :: rows[..n][j] == rows[j];
    } else {
      i := n;
      FoundIff(lower, rows[..n], k);
      assert forall j | 0 <= j < n :: rows[..n][j] == rows[j];
    }
  }

  /** A name is found iff a usable record carries it, and the earliest such record wins. */
  lemma {:induction false} FoundIsFirst(lower: string -> string, rows: seq<Record>, k: string)
    ensures k in Found(lower, rows) <==>
              k != "" && exists i | 0 <= i < |rows| :: lower(Strip(rows[i].name)) == k && rows[i].sysId != ""
    ensures k in Found(lower, rows) ==> exists i | 0 <= i < |rows| ::
              && lower(Strip(rows[i].name)) == k && rows[i].sysId == Found(lower, rows)[k] != ""
              && forall j | 0 <= j < i :: lower(Strip(rows[j].name)) == k ==> rows[j].sysId == ""
  {
    FoundIff(lower, rows, k);
    if k in Found(lower, rows) { var i := FirstFound(lower, rows, k); }
  }

  function Aliased(lower: string -> string, names: seq<string>, aliases: map<string, string>): seq<string> {
    Map(names, (n: string) => Alias(lower, n, aliases))
  }

  function QueryOf(chunk: seq<string>): string {
    match BuildOrQuery("name", chunk, "")
    case Some(q) => q
    case None => ""
  }

  /** The requests that look names up in a table. */
  function LookupQueries(table: Table, names: seq<string>): seq<(Table, string)> {
    Map(Chunks(names, LOOKUP_CHUNK_SIZE), (chunk: seq<string>) => (table, QueryOf(chunk)))
  }

  /** Priming asks for exactly the records that carry a safe name some device has, after aliases. */
  lemma PrimingAsksForNames(lower: string -> string, table: Table, names: seq<string>, aliases: map<string, string>, row: Row)
    ensures (exists q | q in LookupQueries(table, Usable(Aliased(lower, names, aliases))) :: Selects(q.1, row))
            <==> row.field("name") != "" && '^' !in row.field("name")
                 && exists n | n in names ::
                      row.field("name") == Strip(if lower(Strip(n)) in aliases then aliases[lower(Strip(n))] else n)
  {
    forall n ensures Alias(lower, n, aliases) == if lower(Strip(n)) in aliases then aliases[lower(Strip(n))] else n {}
    UsableIsExact(Aliased(lower, names, aliases));
    AliasedMember(lower, names, aliases, row.field("name"));
    QueriesSelect(table, Usable(Aliased(lower, names, aliases)), row);
  }

  lemma QueriesSelect(table: Table, wanted: seq<string>, row: Row)
    requires forall v | v in wanted :: IsQuerySafe(v)
    ensures (exists q | q in LookupQueries(table, wanted) :: Selects(q.1, row)) <==> row.field("name") in wanted
  {
    EmptyAsksNothing();
    EmptySelects(row);
    ChunksCover(wanted, LOOKUP_CHUNK_SIZE);
    ChunksSelectTheSame("name", wanted, "", LOOKUP_CHUNK_SIZE, row);
    LookupQueriesMember(table, wanted, row);
  }

  lemma AliasedMember(lower: string -> string, names: seq<string>, aliases: map<string, string>, t: string)
    ensures (exists v | v in Aliased(lower, names, aliases) :: Strip(v) == t) <==> exists n | n in names :: Strip(Alias(lower, n, aliases)) == t
  {
    if n :| n in names && Strip(Alias(lower, n, aliases)) == t {
      var i :| 0 <= i < |names| && names[i] == n;
      assert Aliased(lower, names, aliases)[i] == Alias(lower, n, aliases);
    }
  }

  /** A priming takes one request for every forty names, and the last may ask for less. */
  lemma QueriesAreFew(table: Table, names: seq<string>)
    ensures |LookupQueries(table, names)| == Ceil(|names|, 40)
  {
    ChunksCover(names, LOOKUP_CHUNK_SIZE);
  }

  lemma LookupQueriesMember(table: Table, names: seq<string>, row: Row)
    ensures (exists q | q in LookupQueries(table, names) :: Selects(q.1, row))
            <==> exists chunk | chunk in Chunks(names, LOOKUP_CHUNK_SIZE) :: Selects(QueryOf(chunk), row)
  {
    var chunks := Chunks(names, LOOKUP_CHUNK_SIZE);
    if chunk :| chunk in chunks && Selects(QueryOf(chunk), row) {
      var i :| 0 <= i < |chunks| && chunks[i] == chunk;
      assert LookupQueries(table, names)[i] == (table, QueryOf(chunk));
    }
  }

  // ---- Which name it is ---------------------------------------------------------------

  /** `name` is the one to look up for what a device reports: its alias where there is one, else itself, trimmed. */
  ghost predicate LookedUp(lower: string -> string, reported: string, aliases: map<string, string>, name: string) {
    && reported != ""
    && name == Strip(if lower(Strip(reported)) in aliases then aliases[lower(Strip(reported))] else reported)
  }

  /** A create request is for a name that some device is to be looked up under, in its own table and through its own aliases. */
  ghost predicate NamedBy(c: Settings, p: Post, d: Device) {
    if p.table.CoreCompany? then LookedUp(c.lower, d.manufacturer, c.manufacturerAliases, p.name) && p.link == ""
    else LookedUp(c.lower, d.model, c.modelAliases, p.name)
  }

  /** A folded name that this device has looked up in this table. */
  ghost predicate FoldedName(c: Settings, table: Table, d: Device, k: string) {
    exists name :: k == c.lower(name) && if table.CoreCompany? then LookedUp(c.lower, d.manufacturer, c.manufacturerAliases, name)
                                         else LookedUp(c.lower, d.model, c.modelAliases, name)
  }

  lemma KeysAreNames(c: Settings, d: Device)
    ensures ManufacturerKey(c, d) != "" ==> FoldedName(c, CoreCompany, d, c.lower(ManufacturerKey(c, d)))
    ensures ManufacturerKey(c, d) != "" ==> NamedBy(c, Post(CoreCompany, ManufacturerKey(c, d), ""), d)
    ensures ModelKey(c, d) != "" ==> FoldedName(c, CmdbModel, d, c.lower(ModelKey(c, d)))
    ensures forall link :: ModelKey(c, d) != "" ==> NamedBy(c, Post(CmdbModel, ModelKey(c, d), link), d)
  {
    if ManufacturerKey(c, d) != "" { assert LookedUp(c.lower, d.manufacturer, c.manufacturerAliases, ManufacturerKey(c, d)); }
    if ModelKey(c, d) != "" { assert LookedUp(c.lower, d.model, c.modelAliases, ModelKey(c, d)); }
  }

  lemma StepPosts(c: Settings, s: State, d: Device, answers: nat -> CreateAnswer)
    ensures forall p | p in Step(c, s, d, answers).posts :: p in s.posts || NamedBy(c, p, d)
  {
    KeysAreNames(c, d);
    var s1 := AfterManufacturer(c, s, d, answers);
    assert forall p | p in s1.posts :: p in s.posts || p == Post(CoreCompany, ManufacturerKey(c, d), "");
  }

  lemma StepCaches(c: Settings, s: State, d: Device, answers: nat -> CreateAnswer, table: Table, k: string)
    requires k in ShelfOf(Step(c, s, d, answers), table).cache && k !in ShelfOf(s, table).cache
    ensures FoldedName(c, table, d, k)
  {
    KeysAreNames(c, d);
  }

  /**
    Over any run, what is created is named by a device of the run, and what is in the caches at
    the end was primed or is the folded name of one.
   */
  lemma CreatesAreNamed(c: Settings, s0: State, ds: seq<Device>, answers: nat -> CreateAnswer)
    requires s0.posts == []
    ensures var s := Run(c, s0, ds, answers);
            && (forall p | p in s.posts :: exists d | d in ds :: NamedBy(c, p, d))
            && (forall table, k | k in ShelfOf(s, table).cache && k !in ShelfOf(s0, table).cache ::
                  exists d | d in ds :: FoldedName(c, table, d, k))
  {
    var s := Run(c, s0, ds, answers);
    forall p | p in s.posts ensures exists d | d in ds :: NamedBy(c, p, d) {
      var d := PostedFor(c, s0, ds, answers, p);
    }
    forall table, k | k in ShelfOf(s, table).cache && k !in ShelfOf(s0, table).cache
      ensures exists d | d in ds :: FoldedName(c, table, d, k)
    {
      var d := CachedFor(c, s0, ds, answers, table, k);
    }
  }

  lemma {:induction false} PostedFor(c: Settings, s0: State, ds: seq<Device>, answers: nat -> CreateAnswer, p: Post) returns (d: Device)
    requires s0.posts == [] && p in Run(c, s0, ds, answers).posts
    ensures d in ds && NamedBy(c, p, d)
  {
    var front := ds[..|ds| - 1];
    d := ds[|ds| - 1];
    StepPosts(c, Run(c, s0, front, answers), d, answers);
    if p in Run(c, s0, front, answers).posts { d := PostedFor(c, s0, front, answers, p); }
  }

  lemma {:induction false} CachedFor(c: Settings, s0: State, ds: seq<Device>, answers: nat -> CreateAnswer, table: Table, k: string)
    returns (d: Device)
    requires k in ShelfOf(Run(c, s0, ds, answers), table).cache && k !in ShelfOf(s0, table).cache
    ensures d in ds && FoldedName(c, table, d, k)
  {
    var front := ds[..|ds| - 1];
    d := ds[|ds| - 1];
    if k in ShelfOf(Run(c, s0, front, answers), table).cache {
      d := CachedFor(c, s0, front, answers, table, k);
    } else {
      StepCaches(c, Run(c, s0, front, answers), d, answers, table, k);
    }
  }

  /** Once it is known whether a company is to be had, no later device changes it. */
  lemma {:induction false} CompanySettled(c: Settings, s: State, ds: seq<Device>, answers: nat -> CreateAnswer, k: string)
    requires Folds(c.lower) && !s.stopped && (k in s.companies.cache || k in Folded(c.lower, s.companies.missing)) && ShelfOk(c.lower, s.companies)
    ensures var t := Run(c, s, ds, answers);
            && ShelfOk(c.lower, t.companies)
            && (if k in s.companies.cache then k in t.companies.cache && t.companies.cache[k] == s.companies.cache[k]
                else k !in t.companies.cache && k in Folded(c.lower, t.companies.missing))
  {
    if ds != [] {
      var front, d := ds[..|ds| - 1], ds[|ds| - 1];
      CompanySettled(c, s, front, answers, k);
      SettledByStep(c, Run(c, s, front, answers), d, answers, k);
    }
  }

  lemma SettledByStep(c: Settings, s: State, d: Device, answers: nat -> CreateAnswer, k: string)
    requires Folds(c.lower) && (k in s.companies.cache || k in Folded(c.lower, s.companies.missing)) && ShelfOk(c.lower, s.companies)
    ensures var t := Step(c, s, d, answers);
            && ShelfOk(c.lower, t.companies)
            && (if k in s.companies.cache then k in t.companies.cache && t.companies.cache[k] == s.companies.cache[k]
                else k !in t.companies.cache && k in Folded(c.lower, t.companies.missing))
  {
    ResolveKeepsShelf(c.lower, s.companies, ManufacturerKey(c, d), c.createManufacturers && !c.dryRun, answers(|s.posts|));
  }

  /**
    Two devices whose manufacturers alias to one name, however each spells it and whatever
    devices come between them: the second is given the company the first was given, or none
    where that got none, without another request.
   */
  lemma AliasesShareACompany(c: Settings, s: State, d: Device, between: seq<Device>, e: Device, answers: nat -> CreateAnswer, name: string)
    requires Folds(c.lower) && !s.stopped && ShelfOk(c.lower, s.companies) && name != ""
    requires LookedUp(c.lower, d.manufacturer, c.manufacturerAliases, name)
    requires LookedUp(c.lower, e.manufacturer, c.manufacturerAliases, name)
    requires !AfterManufacturer(c, s, d, answers).stopped && !Step(c, s, d, answers).stopped
    ensures var r := ManufacturerResolution(c, Run(c, Step(c, s, d, answers), between, answers), e, answers);
            r.sysId == ManufacturerResolution(c, s, d, answers).sysId && !r.posted
  {
    var k := c.lower(name);
    assert ManufacturerKey(c, d) == name && ManufacturerKey(c, e) == name;
    FirstSettles(c, s, d, answers);
    CompanySettled(c, Step(c, s, d, answers), between, answers, k);
  }

  lemma FirstSettles(c: Settings, s: State, d: Device, answers: nat -> CreateAnswer)
    requires Folds(c.lower) && !s.stopped && ShelfOk(c.lower, s.companies) && ManufacturerKey(c, d) != ""
    requires !AfterManufacturer(c, s, d, answers).stopped && !Step(c, s, d, answers).stopped
    ensures var t := Step(c, s, d, answers); var k := c.lower(ManufacturerKey(c, d));
            var id := ManufacturerResolution(c, s, d, answers).sysId;
            && ShelfOk(c.lower, t.companies)
            && (if id != "" then k in t.companies.cache && t.companies.cache[k] == id
                else k !in t.companies.cache && k in Folded(c.lower, t.companies.missing))
  {
    ResolveKeepsShelf(c.lower, s.companies, ManufacturerKey(c, d), c.createManufacturers && !c.dryRun, answers(|s.posts|));
  }

  /**
    What a create is worth: the sys_id it came back with if it was stored under the name it was
    sent with, as far as folding goes; a row stored under another name is counted and not used.
   */
  lemma CreatedIsUsed(c: Settings, s: State, d: Device, answers: nat -> CreateAnswer, name: string)
    requires Folds(c.lower) && !s.stopped && name != "" && LookedUp(c.lower, d.manufacturer, c.manufacturerAliases, name)
    requires ManufacturerResolution(c, s, d, answers).posted
    ensures var r, a := ManufacturerResolution(c, s, d, answers), answers(|s.posts|);
            && (r.sysId != "" <==> a.Stored? && a.sysId != "" && c.lower(Strip(a.name)) == c.lower(Strip(name)))
            && (r.sysId != "" ==> r.sysId == a.sysId)
            && (r.blanks == 1 <==> a.Stored? && a.sysId != "" && c.lower(Strip(a.name)) != c.lower(Strip(name)))
            && (r.stopped <==> a.Lost?)
  {
    assert ManufacturerKey(c, d) == name;
  }

  // ---- Create requests on the wire ---------------------------------------------------

  /** What a reply to a create holds. */
  datatype CreateReply = Empty | Content(body: Body)

  /** wire(n)(k) is what the k-th send of the n-th create request meets. */
  type Wire = nat -> nat -> Retry.Attempt<CreateReply>

  function SendsOfCreate(maxRetries: nat, wire: Wire, n: nat): nat { Retry.SendsOf(None, maxRetries, wire(n), 0) }

  function CreateAnswerOf(o: Retry.Outcome<CreateReply>): CreateAnswer {
    match o
    case Raised(_) => Lost
    case Returned(r) =>
      if !r.Response? || !Retry.Success(r.status) || r.body.Empty? || r.body.body.None? then Refused
      else ReadCreated(r.body.body.value)
  }

  /** The row as it was kept, if the reply is made of objects as far as it is looked into. */
  function ReadCreated(reply: Json): CreateAnswer {
    match FieldsOf(reply)
    case None => Lost
    case Some(payload) =>
      match FieldsOf(Get(payload, "result"))
      case None => Lost
      case Some(row) =>
        var sysId, name := Get(row, "sys_id"), Get(row, "name");
        if !Truthy(sysId) then Refused else Stored(ToText(sysId), if Truthy(name) then ToText(name) else "")
  }

  /** A 2xx reply is worth the sys_id in its `result` exactly when it has one; where there is no object to look into, the run ends. */
  lemma CreateIsRead(r: Retry.Attempt<CreateReply>)
    requires r.Response? && 200 <= r.status < 300 && r.body.Content? && r.body.body.Some?
    ensures var reply, a := r.body.body.value, CreateAnswerOf(Retry.Returned(r));
            && (a.Stored? <==> reply.Object? && Get(reply.fields, "result").Object? && Truthy(Get(Get(reply.fields, "result").fields, "sys_id")))
            && (a.Stored? ==> var row := Get(reply.fields, "result").fields;
                              a.sysId == ToText(Get(row, "sys_id"))
                              && a.name == if Truthy(Get(row, "name")) then ToText(Get(row, "name")) else "")
            && (a.Lost? <==> Truthy(reply)
                             && (!reply.Object? || (Truthy(Get(reply.fields, "result")) && !Get(reply.fields, "result").Object?)))
  {}

  /** What the retrying client makes of the n-th create request. */
  function Decided(maxRetries: nat, wire: Wire): nat -> CreateAnswer {
    (n: nat) => CreateAnswerOf(Retry.OutcomeOf(None, wire(n)(SendsOfCreate(maxRetries, wire, n) - 1)))
  }

  /** A server that meets every send alike. */
  function Always(a: Retry.Attempt<CreateReply>): Wire { _ => _ => a }

  /** How often a folded name went out to a table. */
  function SendsFor(c: Settings, maxRetries: nat, wire: Wire, posts: seq<Post>, table: Table, k: string): nat {
    if posts == [] then 0
    else
      var n := |posts| - 1;
      SendsFor(c, maxRetries, wire, posts[..n], table, k)
      + if posts[n].table == table && c.lower(posts[n].name) == k then SendsOfCreate(maxRetries, wire, n) else 0
  }

  lemma {:induction false} UnsentName(c: Settings, maxRetries: nat, wire: Wire, posts: seq<Post>, table: Table, k: string)
    requires forall i | 0 <= i < |posts| && posts[i].table == table :: c.lower(posts[i].name) != k
    ensures SendsFor(c, maxRetries, wire, posts, table, k) == 0
  {
    if posts != [] { UnsentName(c, maxRetries, wire, posts[..|posts| - 1], table, k); }
  }

  /** A name is sent as often as its one create request, if it has one. */
  lemma {:induction false} SendsOfName(c: Settings, maxRetries: nat, wire: Wire, posts: seq<Post>, table: Table, k: string)
    requires NamesOnce(c, posts)
    ensures SendsFor(c, maxRetries, wire, posts, table, k) == 0
            || exists n: nat :: n < |posts| && SendsFor(c, maxRetries, wire, posts, table, k) == SendsOfCreate(maxRetries, wire, n)
  {
    if posts != [] {
      var n := |posts| - 1;
      if posts[n].table == table && c.lower(posts[n].name) == k {
        UnsentName(c, maxRetries, wire, posts[..n], table, k);
      } else {
        SendsOfName(c, maxRetries, wire, posts[..n], table, k);
      }
    }
  }

  function History(c: Settings, companies: map<string, string>, models: map<string, string>, ds: seq<Device>, maxRetries: nat, wire: Wire): seq<Post> {
    Run(c, Primed(companies, models), ds, Decided(maxRetries, wire)).posts
  }

  /** On the wire each folded name goes out at most R + 1 times per table, over any devices and answers. */
  lemma {:induction false} SendsPerName(c: Settings, companies: map<string, string>, models: map<string, string>,
                                         ds: seq<Device>, maxRetries: nat, wire: Wire, table: Table, k: string)
    requires Folds(c.lower) && "" !in companies.Values && "" !in models.Values
    ensures SendsFor(c, maxRetries, wire, History(c, companies, models, ds, maxRetries, wire), table, k) <= maxRetries + 1
    ensures c.dryRun ==> SendsFor(c, maxRetries, wire, History(c, companies, models, ds, maxRetries, wire), table, k) == 0
  {
    CreatesAtMostOnce(c, companies, models, ds, Decided(maxRetries, wire));
    var posts := History(c, companies, models, ds, maxRetries, wire);
    assert NamesOnce(c, posts);
    SendsOfName(c, maxRetries, wire, posts, table, k);
  }

  ghost predicate Allowed(wire: Wire, ok: Retry.Attempt<CreateReply> -> bool) { forall n, k :: ok(wire(n)(k)) }

  ghost predicate EachNameOnce(c: Settings, maxRetries: nat, wire: Wire, posts: seq<Post>) {
    forall table, k :: SendsFor(c, maxRetries, wire, posts, table, k) <= 1
  }

  /** An instance that stores the row or not, and is too busy to say so. */
  const BUSY: Retry.Attempt<CreateReply> := Retry.Response(503, Retry.NoRetryAfter, Retry.NoReset, Empty)

  lemma {:induction false} NeverFinalSends(maxRetries: nat, answers: nat -> Retry.Attempt<CreateReply>, n: nat)
    requires n <= maxRetries && forall k :: !Retry.Final(None, answers(k))
    ensures Retry.SendsOf(None, maxRetries, answers, n) == maxRetries + 1
    decreases maxRetries - n
  {
    if n < maxRetries { NeverFinalSends(maxRetries, answers, n + 1); }
  }

  /** A device for which this configuration may have to create a record. */
  predicate Creatable(c: Settings, d: Device) {
    && !c.dryRun && ManufacturerKey(c, d) != ""
    && (c.createManufacturers || (c.createModels && ModelKey(c, d) != ""))
  }

  /** A device whose first create is lost: the run ends with that one request, for the company or, if it is known, for the model. */
  lemma LostCreate(c: Settings, d: Device, answers: nat -> CreateAnswer) returns (companies: map<string, string>, p: Post)
    requires Folds(c.lower) && Creatable(c, d) && answers(0) == Lost
    ensures "" !in companies.Values
    ensures Run(c, Primed(companies, map[]), [d], answers).posts == [p]
  {
    if c.createManufacturers {
      companies, p := map[], Post(CoreCompany, ManufacturerKey(c, d), "");
    } else {
      companies, p := map[c.lower(ManufacturerKey(c, d)) := "m"], Post(CmdbModel, ModelKey(c, d), "m");
    }
    assert [d][..0] == [];
    assert Run(c, Primed(companies, map[]), [], answers) == Primed(companies, map[]);
  }

  lemma SendsOfOne(c: Settings, maxRetries: nat, wire: Wire, p: Post)
    ensures SendsFor(c, maxRetries, wire, [p], p.table, c.lower(p.name)) == SendsOfCreate(maxRetries, wire, 0)
  {
    assert [p][..0] == [];
    assert SendsFor(c, maxRetries, wire, [], p.table, c.lower(p.name)) == 0;
  }

  /** Whatever retryable answer a server keeps giving, a record to be created goes out R + 1 times under one name. */
  lemma RetriedCreate(c: Settings, d: Device, maxRetries: nat, a: Retry.Attempt<CreateReply>)
    returns (companies: map<string, string>, p: Post)
    requires Folds(c.lower) && Creatable(c, d) && !Retry.Final(None, a)
    ensures "" !in companies.Values
    ensures SendsFor(c, maxRetries, Always(a), History(c, companies, map[], [d], maxRetries, Always(a)), p.table, c.lower(p.name))
            == maxRetries + 1
  {
    var wire := Always(a);
    NeverFinalSends(maxRetries, wire(0), 0);
    companies, p := LostCreate(c, d, Decided(maxRetries, wire));
    SendsOfOne(c, maxRetries, wire, p);
  }

  /** The same with 503: one name, R + 1 sends. */
  lemma BusyServerResends(c: Settings, d: Device, maxRetries: nat) returns (companies: map<string, string>, p: Post)
    requires Folds(c.lower) && Creatable(c, d)
    ensures "" !in companies.Values
    ensures SendsFor(c, maxRetries, Always(BUSY), History(c, companies, map[], [d], maxRetries, Always(BUSY)), p.table, c.lower(p.name))
            == maxRetries + 1
  {
    companies, p := RetriedCreate(c, d, maxRetries, BUSY);
  }

  /** Over every history this server can bring about, each name goes out at most once per table. */
  ghost predicate AlwaysOnce(c: Settings, maxRetries: nat, ok: Retry.Attempt<CreateReply> -> bool) {
    forall companies: map<string, string>, models: map<string, string>, ds: seq<Device>, wire: Wire
      | "" !in companies.Values && "" !in models.Values && Allowed(wire, ok) ::
      EachNameOnce(c, maxRetries, wire, History(c, companies, models, ds, maxRetries, wire))
  }

  /**
    Over every history, each name goes out at most once per table iff nothing is retried, the
    server never answers a create retryably, or there is nothing this configuration creates.
   */
  lemma {:induction false} SentOnceIff(c: Settings, maxRetries: nat, ok: Retry.Attempt<CreateReply> -> bool)
    requires Folds(c.lower)
    ensures AlwaysOnce(c, maxRetries, ok)
            <==> maxRetries == 0 || (forall a | ok(a) :: Retry.Final(None, a)) || (forall d :: !Creatable(c, d))
  {
    if forall d :: !Creatable(c, d) {
      NothingSent(c, maxRetries, ok);
    } else if maxRetries == 0 || forall a | ok(a) :: Retry.Final(None, a) {
      forall companies: map<string, string>, models: map<string, string>, ds: seq<Device>, wire: Wire
        | "" !in companies.Values && "" !in models.Values && Allowed(wire, ok)
        ensures EachNameOnce(c, maxRetries, wire, History(c, companies, models, ds, maxRetries, wire))
      {
        FinalOnce(c, companies, models, ds, maxRetries, wire);
      }
    } else {
      var a :| ok(a) && !Retry.Final(None, a);
      var d :| Creatable(c, d);
      NotOnce(c, d, maxRetries, ok, a);
    }
  }

  lemma NotOnce(c: Settings, d: Device, maxRetries: nat, ok: Retry.Attempt<CreateReply> -> bool, a: Retry.Attempt<CreateReply>)
    requires Folds(c.lower) && Creatable(c, d) && maxRetries > 0 && ok(a) && !Retry.Final(None, a)
    ensures !AlwaysOnce(c, maxRetries, ok)
  {
    var companies, p := RetriedCreate(c, d, maxRetries, a);
    var models: map<string, string> := map[];
    assert "" !in models.Values && Allowed(Always(a), ok);
    assert !EachNameOnce(c, maxRetries, Always(a), History(c, companies, models, [d], maxRetries, Always(a)));
  }

  /** A device for which nothing may be created causes no create request. */
  lemma NotCreatable(c: Settings, s: State, d: Device, answers: nat -> CreateAnswer)
    requires Folds(c.lower) && !Creatable(c, d)
    ensures Step(c, s, d, answers).posts == s.posts
  {}

  lemma {:induction false} NothingPosted(c: Settings, s0: State, ds: seq<Device>, answers: nat -> CreateAnswer)
    requires Folds(c.lower) && forall d :: !Creatable(c, d)
    ensures Run(c, s0, ds, answers).posts == s0.posts
  {
    if ds != [] {
      var front := ds[..|ds| - 1];
      NothingPosted(c, s0, front, answers);
      NotCreatable(c, Run(c, s0, front, answers), ds[|ds| - 1], answers);
    }
  }

  lemma NothingSent(c: Settings, maxRetries: nat, ok: Retry.Attempt<CreateReply> -> bool)
    requires Folds(c.lower) && forall d :: !Creatable(c, d)
    ensures AlwaysOnce(c, maxRetries, ok)
  {
    forall companies: map<string, string>, models: map<string, string>, ds: seq<Device>, wire: Wire
      ensures EachNameOnce(c, maxRetries, wire, History(c, companies, models, ds, maxRetries, wire))
    {
      NothingPosted(c, Primed(companies, models), ds, Decided(maxRetries, wire));
    }
  }

  lemma OneSendOfName(c: Settings, maxRetries: nat, wire: Wire, posts: seq<Post>, table: Table, k: string)
    requires NamesOnce(c, posts) && (maxRetries == 0 || forall n, k :: Retry.Final(None, wire(n)(k)))
    ensures SendsFor(c, maxRetries, wire, posts, table, k) <= 1
  {
    SendsOfName(c, maxRetries, wire, posts, table, k);
    assert forall n: nat :: n < |posts| ==> SendsOfCreate(maxRetries, wire, n) == 1;
  }

  lemma FinalOnce(c: Settings, companies: map<string, string>, models: map<string, string>, ds: seq<Device>, maxRetries: nat, wire: Wire)
    requires Folds(c.lower) && "" !in companies.Values && "" !in models.Values
    requires maxRetries == 0 || forall n, k :: Retry.Final(None, wire(n)(k))
    ensures EachNameOnce(c, maxRetries, wire, History(c, companies, models, ds, maxRetries, wire))
  {
    var posts := History(c, companies, models, ds, maxRetries, wire);
    CreatesAtMostOnce(c, companies, models, ds, Decided(maxRetries, wire));
    assert NamesOnce(c, posts);
    forall table, k ensures SendsFor(c, maxRetries, wire, posts, table, k) <= 1 {
      OneSendOfName(c, maxRetries, wire, posts, table, k);
    }
  }

  // ---- The resolver object -------------------------------------------------------

  /** The Table API behind the retrying client: reads return anything, creates meet what the wire gives them. */
  class TableApi {
    const maxRetries: nat
    const wire: Wire
    var asked: seq<(Table, string)>
    var posts: seq<Post>
    /** How often each create request went out. */
    var sends: seq<nat>

    constructor (maxRetries: nat, wire: Wire)
      ensures this.maxRetries == maxRetries && this.wire == wire && posts == [] && sends == [] && asked == []
    {
      this.maxRetries, this.wire := maxRetries, wire;
      asked, posts, sends := [], [], [];
    }

    function answers(n: nat): CreateAnswer { Decided(maxRetries, wire)(n) }

    ghost predicate Counted()
      reads `posts, `sends
    {
      |sends| == |posts| && forall n | 0 <= n < |posts| :: sends[n] == SendsOfCreate(maxRetries, wire, n)
    }

    method Query(table: Table, query: string) returns (rows: seq<Record>)
      modifies `asked
      ensures asked == old(asked) + [(table, query)]
    {
      asked := asked + [(table, query)];
      rows := *;
    }

    method Create(p: Post) returns (a: CreateAnswer)
      modifies `posts, `sends
      ensures posts == old(posts) + [p] && a == answers(|old(posts)|)
      ensures old(Counted()) ==> Counted()
    {
      var outcome, used, _ := Retry.Request(wire(|posts|), _ => 0.5, 0.0, maxRetries, None);
      a := CreateAnswerOf(outcome);
      posts, sends := posts + [p], sends + [used];
    }
  }

  class ReferenceResolver {
    const cfg: Settings
    const api: TableApi
    var manufacturers: map<string, string>
    var models: map<string, string>
    var missingManufacturers: set<string>
    var missingModels: set<string>
    var modelsAwaitingManufacturer: set<string>
    var blankCreations: nat
    /** An exception has left the resolver: the run is over. */
    var stopped: bool

    ghost function Now(): State
      reads this, api
    {
      State(Shelf(manufacturers, missingManufacturers), Shelf(models, missingModels),
            modelsAwaitingManufacturer, blankCreations, api.posts, stopped)
    }

    constructor (cfg: Settings, api: TableApi)
      requires api.posts == []
      ensures this.cfg == cfg && this.api == api && Now() == Primed(map[], map[])
    {
      this.cfg, this.api := cfg, api;
      manufacturers, models, missingManufacturers, missingModels := map[], map[], {}, {};
      modelsAwaitingManufacturer, blankCreations, stopped := {}, 0, false;
    }

    /** Look the usable names up chunk by chunk; rows is everything the server returned. */
    method Lookup(table: Table, names: seq<string>) returns (found: map<string, string>, ghost rows: seq<Record>)
      modifies api`asked
      ensures found == Found(cfg.lower, rows) && api.asked == old(api.asked) + LookupQueries(table, names)
    {
      found, rows := map[], [];
      var chunks := Chunks(names, LOOKUP_CHUNK_SIZE);
      ghost var requests := LookupQueries(table, names);
      for n := 0 to |chunks|
        invariant found == Found(cfg.lower, rows) && api.asked == old(api.asked) + requests[..n]
      {
        TakeOneMore(requests, n);
        ConcatAssociates(old(api.asked), requests[..n], [requests[n]]);
        var page := api.Query(table, QueryOf(chunks[n]));
        for i := 0 to |page|
          invariant found == Found(cfg.lower, rows) && api.asked == old(api.asked) + requests[..n + 1]
        {
          var name := cfg.lower(Strip(page[i].name));
          assert (rows + [page[i]])[..|rows|] == rows;
          rows := rows + [page[i]];
          if name != "" && page[i].sysId != "" && name !in found {
            found := found[name := page[i].sysId];
          }
        }
      }
      assert requests[..|chunks|] == requests;
    }

    /** Bulk-load every name the run will need. A fresh resolver is primed with found records only. */
    method Prime(manufacturerNames: seq<string>, modelNames: seq<string>) returns (ghost rs: seq<Record>, ghost ms: seq<Record>)
      modifies this, api`asked
      ensures Now() == old(Now()).(companies := Shelf(old(manufacturers) + Found(cfg.lower, rs), old(missingManufacturers)),
                                                    models := Shelf(old(models) + Found(cfg.lower, ms), old(missingModels)))
      ensures api.asked == old(api.asked) + LookupQueries(CoreCompany, Usable(Aliased(cfg.lower, manufacturerNames, cfg.manufacturerAliases)))
                           + LookupQueries(CmdbModel, Usable(Aliased(cfg.lower, modelNames, cfg.modelAliases)))
      ensures old(Now()) == Primed(map[], map[]) ==> IsPrimed(Now())
    {
      var found;
      var usable := UsableValues(Aliased(cfg.lower, manufacturerNames, cfg.manufacturerAliases));
      found, rs := Lookup(CoreCompany, usable);
      manufacturers := manufacturers + found;
      usable := UsableValues(Aliased(cfg.lower, modelNames, cfg.modelAliases));
      found, ms := Lookup(CmdbModel, usable);
      models := models + found;
      forall k | k in Found(cfg.lower, rs) ensures Found(cfg.lower, rs)[k] != "" { FoundIsFirst(cfg.lower, rs, k); }
      forall k | k in Found(cfg.lower, ms) ensures Found(cfg.lower, ms)[k] != "" { FoundIsFirst(cfg.lower, ms, k); }
    }

    /** Create a record; "" unless the row came back under the name it was sent with. */
    method CreateRecord(table: Table, name: string, link: string) returns (sysId: string)
      modifies this`blankCreations, this`stopped, api
      ensures api.posts == old(api.posts) + [Post(table, name, link)] && (old(api.Counted()) ==> api.Counted())
      ensures var a := api.answers(|old(api.posts)|);
              && stopped == (old(stopped) || a.Lost?)
              && sysId == UsableId(cfg.lower, name, a)
              && blankCreations == old(blankCreations) + IsBlank(cfg.lower, name, a)
    {
      var a := api.Create(Post(table, name, link));
      sysId := "";
      match a
      case Refused =>
      case Lost => stopped := true;
      case Stored(id, stored) =>
        if id != "" {
          if cfg.lower(Strip(stored)) != cfg.lower(Strip(name)) {
            blankCreations := blankCreations + 1;
          } else {
            sysId := id;
          }
        }
    }

    /** One name against one table. */
    method ResolveName(table: Table, key: string, create: bool, link: string) returns (sysId: string)
      requires Folds(cfg.lower) && !stopped
      modifies this`manufacturers, this`models, this`missingManufacturers, this`missingModels,
               this`blankCreations, this`stopped, api
      ensures old(api.Counted()) ==> api.Counted()
      ensures var r := Resolve(cfg.lower, ShelfOf(old(Now()), table), key, create && !cfg.dryRun, api.answers(|old(api.posts)|));
              && sysId == r.sysId
              && Now() == (var s := Posted(old(Now()), r, Post(table, key, link));
                           if table.CoreCompany? then s.(companies := r.shelf) else s.(models := r.shelf))
    {
      if key == "" { return ""; }
      var lowered := cfg.lower(key);
      var cache := if table.CoreCompany? then manufacturers else models;
      var missing := if table.CoreCompany? then missingManufacturers else missingModels;
      if lowered in cache { return cache[lowered]; }
      if exists m | m in missing :: cfg.lower(m) == lowered { return ""; }
      sysId := "";
      if create && !cfg.dryRun {
        sysId := CreateRecord(table, key, link);
        if stopped { return ""; }
      }
      if sysId != "" {
        if table.CoreCompany? { manufacturers := manufacturers[lowered := sysId]; } else { models := models[lowered := sysId]; }
      } else {
        if table.CoreCompany? { missingManufacturers := missingManufacturers + {key}; } else { missingModels := missingModels + {key}; }
      }
    }

    method RetryModelAwaitingManufacturer(k: string)
      modifies this`modelsAwaitingManufacturer, this`missingModels
      ensures Now() == Retried(cfg, old(Now()), k)
    {
      if k !in modelsAwaitingManufacturer { return; }
      modelsAwaitingManufacturer := modelsAwaitingManufacturer - {k};
      missingModels := set m | m in missingModels && cfg.lower(m) != k;
    }

    /** The sys_ids one device's names resolve to; "" where there is none. */
    method ReferencesFor(d: Device) returns (manufacturer: string, model: string)
      requires Folds(cfg.lower) && !stopped
      modifies this, api
      ensures Now() == Step(cfg, old(Now()), d, api.answers) && (old(api.Counted()) ==> api.Counted())
      ensures manufacturer == ManufacturerResolution(cfg, old(Now()), d, api.answers).sysId
      ensures !stopped ==> model == ModelReference(cfg, old(Now()), d, api.answers)
    {
      model := "";
      manufacturer := ResolveName(CoreCompany, ManufacturerKey(cfg, d), cfg.createManufacturers, "");
      if stopped { return; }
      model := ModelFor(d, manufacturer);
    }

    /** The model half: a model that waits may be created under this manufacturer. */
    method ModelFor(d: Device, manufacturer: string) returns (model: string)
      requires Folds(cfg.lower) && !stopped
      modifies this, api
      ensures Now() == AfterModel(cfg, old(Now()), d, manufacturer, api.answers) && (old(api.Counted()) ==> api.Counted())
      ensures !stopped ==>
                var k := cfg.lower(ModelKey(cfg, d));
                var s := if cfg.createModels && k != "" && manufacturer != "" then Retried(cfg, old(Now()), k) else old(Now());
                model == ModelResolution(cfg, s, ModelKey(cfg, d), manufacturer, api.answers).sysId
    {
      var key := ModelKey(cfg, d);
      var k := cfg.lower(key);
      if cfg.createModels && k != "" && manufacturer != "" {
        RetryModelAwaitingManufacturer(k);
      }
      var alreadyMissing := exists m | m in missingModels :: cfg.lower(m) == k;
      model := ResolveName(CmdbModel, key, cfg.createModels && manufacturer != "", manufacturer);
      if stopped { return; }
      if model == "" && k != "" && cfg.createModels && manufacturer == "" && !alreadyMissing {
        modelsAwaitingManufacturer := modelsAwaitingManufacturer + {k};
      }
    }

    /** A whole run's worth of devices, up to the exception that may end it. */
    method ReferencesForAll(ds: seq<Device>)
      requires Folds(cfg.lower)
      modifies this, api
      ensures Now() == Run(cfg, old(Now()), ds, api.answers) && (old(api.Counted()) ==> api.Counted())
    {
      for n := 0 to |ds|
        invariant Now() == Run(cfg, old(Now()), ds[..n], api.answers) && (old(api.Counted()) ==> api.Counted())
      {
        assert ds[..n + 1][..n] == ds[..n];
        if !stopped {
          var _, _ := ReferencesFor(ds[n]);
        }
      }
      assert ds[..|ds|] == ds;
    }
  }
}
