/**
 * The read of the `decs_image` data source: it takes the arguments the host
 * stored, sends the tenant and resource-group scope as query parameters of the
 * image-listing call, scans the listed images in order for the first one whose
 * name (and, when given, pool and SEP id) match, and writes that image's id,
 * SEP id and pool back into the data source's state.
 */
module ImageRead {
  import opened Wrappers
  import opened Decimal
  import opened GoQuote
  import opened ImageSchema

  /** One element of the decoded image list. */
  datatype Candidate = Candidate(id: int, name: string, pool: string, sepId: int)

  /** What the read searches for: the name, and the arguments GetOk reports as set. */
  datatype Criteria = Criteria(
    name: string,
    pool: Option<string>,
    sepId: Option<int>,
    tenantId: Option<int>,
    rgid: Option<int>)

  /** Errors the read returns: those of the API call and of the decoder, unchanged, and its own. */
  datatype Error =
    | Transport(detail: string)
    | Decode(detail: string)
    | NotFound(name: string)

  const NotFoundPrefix: string := "Cannot find OS Image name "

  /** The error's text: a collaborator's error as it came, and for not-found the fixed prefix and then the quoted name. */
  function Message(e: Error): (m: string)
    ensures e.Transport? ==> m == e.detail
    ensures e.Decode? ==> m == e.detail
    ensures e.NotFound? ==> |m| > |NotFoundPrefix| && m[..|NotFoundPrefix|] == NotFoundPrefix
  {
    match e
    case Transport(detail) => detail
    case Decode(detail) => detail
    case NotFound(name) => NotFoundPrefix + Quote(name)
  }

  /** The not-found message names the image searched for, exactly and recoverably. */
  lemma NotFoundMessageNamesImage(name: string)
    ensures var m := Message(NotFound(name));
      |m| >= |NotFoundPrefix| && m[..|NotFoundPrefix|] == NotFoundPrefix
      && Unquote(m[|NotFoundPrefix|..]) == Some(name)
  {
    var m := Message(NotFound(name));
    assert m[|NotFoundPrefix|..] == Quote(name);
    UnquoteQuote(name);
  }

  // ---------------------------------------------------------------------------
  // GetOk: the host reports an argument holding its type's zero value as not set.

  /** Storing what GetOk reports gives back the stored value; a set string is never empty. */
  function GetOkString(v: string): (o: Option<string>)
    ensures StoredString(o) == v
    ensures o != Some("")
  {
    if v == "" then None else Some(v)
  }

  /** Storing what GetOk reports gives back the stored value; a set integer is never zero. */
  function GetOkInt(v: int): (o: Option<int>)
    ensures StoredInt(o) == v
    ensures o != Some(0)
  {
    if v == 0 then None else Some(v)
  }

  /** No filter holds a zero value: the shape every criteria built from GetOk has. */
  predicate WellFormed(crit: Criteria) {
    crit.pool != Some("") && crit.sepId != Some(0) && crit.tenantId != Some(0) && crit.rgid != Some(0)
  }

  /** What the host stores for an argument: its value, or the zero value when left out. */
  function StoredString(o: Option<string>): string {
    o.GetOr("")
  }

  function StoredInt(o: Option<int>): int {
    o.GetOr(0)
  }

  /**
   * For a configuration that passed validation, GetOk loses nothing: an
   * argument is reported as set exactly when the configuration sets it.
   */
  lemma ValidConfigReadsBack(cfg: Config)
    requires ValidConfig(cfg)
    ensures GetOkString(StoredString(cfg.pool)) == cfg.pool
    ensures GetOkInt(StoredInt(cfg.sepId)) == cfg.sepId
    ensures GetOkInt(StoredInt(cfg.tenantId)) == cfg.tenantId
    ensures GetOkInt(StoredInt(cfg.rgid)) == cfg.rgid
  {
  }

  // ---------------------------------------------------------------------------
  // Query hints.

  /** `url.Values`: each key maps to the values added under it, in order. */
  type QueryValues = map<string, seq<string>>

  const AccountIdKey: string := "accountId"
  const CloudspaceIdKey: string := "cloudspaceId"

  function ValuesOf(q: QueryValues, key: string): seq<string> {
    if key in q then q[key] else []
  }

  /**
   * The query sent with the listing call: `accountId` exactly when a tenant is
   * given and `cloudspaceId` exactly when a resource group is given, each with
   * the decimal text of its id as its one value, and nothing else.
   */
  function QueryHints(tenantId: Option<int>, rgid: Option<int>): (q: QueryValues)
    ensures AccountIdKey in q <==> tenantId.Some?
    ensures CloudspaceIdKey in q <==> rgid.Some?
    ensures tenantId.Some? ==> q[AccountIdKey] == [DecimalString(tenantId.value)]
    ensures rgid.Some? ==> q[CloudspaceIdKey] == [DecimalString(rgid.value)]
    ensures forall k :: k in q ==> k == AccountIdKey || k == CloudspaceIdKey
  {
    var q: QueryValues := map[];
    var q := if tenantId.Some? then q[AccountIdKey := [DecimalString(tenantId.value)]] else q;
    if rgid.Some? then q[CloudspaceIdKey := [DecimalString(rgid.value)]] else q
  }

  /** The ids in the query read back as the tenant and resource group given. */
  lemma QueryHintsReadBack(tenantId: Option<int>, rgid: Option<int>)
    ensures var q := QueryHints(tenantId, rgid);
      && (tenantId.Some? ==> ParseDecimal(q[AccountIdKey][0]) == tenantId)
      && (rgid.Some? ==> ParseDecimal(q[CloudspaceIdKey][0]) == rgid)
  {
    if tenantId.Some? { DecimalRoundTrip(tenantId.value); }
    if rgid.Some? { DecimalRoundTrip(rgid.value); }
  }

  /** The `url.Values` the read fills in place. */
  class UrlValues {
    var entries: QueryValues

    constructor ()
      ensures entries == map[]
    {
      entries := map[];
    }

    /** `Add(key, value)`: appends `value` to the values of `key`. */
    method Add(key: string, value: string)
      modifies this
      ensures entries == old(entries)[key := ValuesOf(old(entries), key) + [value]]
    {
      entries := entries[key := ValuesOf(entries, key) + [value]];
    }
  }

  // ---------------------------------------------------------------------------
  // First-match resolution.

  /** A candidate survives when its name is the one searched and every set filter agrees. */
  predicate Matches(c: Candidate, crit: Criteria)
    ensures Matches(c, crit) ==> c.name == crit.name
    ensures crit.pool.Some? && c.pool != crit.pool.value ==> !Matches(c, crit)
    ensures crit.sepId.Some? && c.sepId != crit.sepId.value ==> !Matches(c, crit)
    ensures c.name == crit.name && crit.pool.None? && crit.sepId.None? ==> Matches(c, crit)
  {
    && c.name == crit.name
    && (crit.pool.Some? ==> c.pool == crit.pool.value)
    && (crit.sepId.Some? ==> c.sepId == crit.sepId.value)
  }

  /** Index `i` holds a surviving candidate and no earlier one survives. */
  predicate IsFirstMatch(cands: seq<Candidate>, crit: Criteria, i: nat) {
    && i < |cands|
    && Matches(cands[i], crit)
    && forall j :: 0 <= j < i ==> !Matches(cands[j], crit)
  }

  /** The lowest index of a surviving candidate, or None when none survives. */
  function FindFirst(cands: seq<Candidate>, crit: Criteria): (r: Option<nat>)
    ensures r.Some? ==> IsFirstMatch(cands, crit, r.value)
    ensures r.None? ==> forall j :: 0 <= j < |cands| ==> !Matches(cands[j], crit)
  {
    if cands == [] then None
    else if Matches(cands[0], crit) then Some(0)
    else
      match FindFirst(cands[1..], crit)
      case None => None
      case Some(i) => Some(i + 1)
  }

  /** The first surviving candidate is the one FindFirst picks, and only it. */
  lemma FindFirstIsFirstMatch(cands: seq<Candidate>, crit: Criteria, i: nat)
    ensures FindFirst(cands, crit) == Some(i) <==> IsFirstMatch(cands, crit, i)
  {
  }

  /** Tenant and resource group never take part in matching. */
  lemma FindFirstIgnoresScope(cands: seq<Candidate>, crit: Criteria, tenantId: Option<int>, rgid: Option<int>)
    ensures FindFirst(cands, crit) == FindFirst(cands, crit.(tenantId := tenantId, rgid := rgid))
  {
  }

  /**
   * Several survivors are no error: the earliest wins. With the name alone,
   * the first image of that name wins whatever its pool; naming the pool of
   * the second picks the second.
   */
  lemma FirstOfSeveralWins()
    ensures var cands := [Candidate(1, "A", "p1", 1), Candidate(2, "A", "p2", 1)];
      && FindFirst(cands, Criteria("A", None, None, None, None)) == Some(0)
      && FindFirst(cands, Criteria("A", Some("p2"), None, None, None)) == Some(1)
  {
  }

  /** The loop of the read: scans `cands` in order and stops at the first survivor. */
  method SelectImage(cands: seq<Candidate>, crit: Criteria) returns (found: Option<nat>)
    ensures found == FindFirst(cands, crit)
  {
    var index := 0;
    while index < |cands|
      invariant 0 <= index <= |cands|
      invariant forall j :: 0 <= j < index ==> !Matches(cands[j], crit)
    {
      var item := cands[index];
      if item.name == crit.name {
        if crit.pool.Some? && crit.pool.value != item.pool {
          index := index + 1;
          continue;
        }
        if crit.sepId.Some? && crit.sepId.value != item.sepId {
          index := index + 1;
          continue;
        }
        FindFirstIsFirstMatch(cands, crit, index);
        return Some(index);
      }
      index := index + 1;
    }
    return None;
  }

  // ---------------------------------------------------------------------------
  // The whole read, as a value, and its write-back.

  /**
   * What one read produces from the criteria, the listing call and the decoder:
   * the call's or the decoder's error unchanged, the first surviving
   * candidate, or a not-found error naming the image searched.
   */
  function ReadOutcome(crit: Criteria, api: QueryValues -> Result<string, Error>,
                       decode: string -> Result<seq<Candidate>, Error>): (r: Result<Candidate, Error>)
    ensures var reply := api(QueryHints(crit.tenantId, crit.rgid));
      reply.Failure? ==> r == Failure(reply.error)
    ensures var reply := api(QueryHints(crit.tenantId, crit.rgid));
      reply.Success? && decode(reply.value).Failure? ==> r == Failure(decode(reply.value).error)
    ensures var reply := api(QueryHints(crit.tenantId, crit.rgid));
      reply.Success? && decode(reply.value).Success? ==>
        var cands := decode(reply.value).value;
        && (r.Success? <==> exists i :: 0 <= i < |cands| && Matches(cands[i], crit))
        && (r.Success? ==> exists i: nat :: IsFirstMatch(cands, crit, i) && r.value == cands[i])
        && (r.Failure? ==> r.error == NotFound(crit.name))
  {
    match api(QueryHints(crit.tenantId, crit.rgid))
    case Failure(e) => Failure(e)
    case Success(body) =>
      match decode(body)
      case Failure(e) => Failure(e)
      case Success(cands) =>
        match FindFirst(cands, crit)
        case Some(i) => Success(cands[i])
        case None => Failure(NotFound(crit.name))
  }

  /** The criteria a later read sees once `c`'s SEP id and pool are written back. */
  function WrittenBack(crit: Criteria, c: Candidate): Criteria {
    crit.(pool := GetOkString(c.pool), sepId := GetOkInt(c.sepId))
  }

  /**
   * The write-back settles the state: reading again with the written-back
   * pool and SEP id, against the same listing, picks the same image.
   */
  lemma RereadIsStable(crit: Criteria, api: QueryValues -> Result<string, Error>,
                       decode: string -> Result<seq<Candidate>, Error>)
    requires WellFormed(crit)
    requires ReadOutcome(crit, api, decode).Success?
    ensures var c := ReadOutcome(crit, api, decode).value;
      ReadOutcome(WrittenBack(crit, c), api, decode) == Success(c)
  {
  }

  /** Tenant and resource group act on the read only through the query they add. */
  lemma ScopeOnlyShapesQuery(crit: Criteria, tenantId: Option<int>, rgid: Option<int>,
                             api: QueryValues -> Result<string, Error>,
                             decode: string -> Result<seq<Candidate>, Error>)
    requires api(QueryHints(crit.tenantId, crit.rgid)) == api(QueryHints(tenantId, rgid))
    ensures var scoped := crit.(tenantId := tenantId, rgid := rgid);
      ReadOutcome(crit, api, decode) == ReadOutcome(scoped, api, decode)
  {
  }

  /** The data source's state as the host keeps it (`schema.ResourceData`). */
  class ResourceData {
    var id: string
    var name: string
    var pool: string
    var sepId: int
    var tenantId: int
    var rgid: int

    /** The host stores each argument of the configuration, or its zero value when left out. */
    constructor FromConfig(cfg: Config)
      ensures id == "" && name == StoredString(cfg.name) && pool == StoredString(cfg.pool)
      ensures sepId == StoredInt(cfg.sepId) && tenantId == StoredInt(cfg.tenantId) && rgid == StoredInt(cfg.rgid)
    {
      id := "";
      name := StoredString(cfg.name);
      pool := StoredString(cfg.pool);
      sepId := StoredInt(cfg.sepId);
      tenantId := StoredInt(cfg.tenantId);
      rgid := StoredInt(cfg.rgid);
    }

    /** The criteria the read takes from the state through Get and GetOk. */
    function LookupCriteria(): (c: Criteria)
      reads this
      ensures WellFormed(c)
    {
      Criteria(name, GetOkString(pool), GetOkInt(sepId), GetOkInt(tenantId), GetOkInt(rgid))
    }

    method SetId(v: string)
      modifies this
      ensures id == v
      ensures name == old(name) && pool == old(pool) && sepId == old(sepId)
      ensures tenantId == old(tenantId) && rgid == old(rgid)
    {
      id := v;
    }

    method SetSepId(v: int)
      modifies this
      ensures sepId == v
      ensures id == old(id) && name == old(name) && pool == old(pool)
      ensures tenantId == old(tenantId) && rgid == old(rgid)
    {
      sepId := v;
    }

    method SetPool(v: string)
      modifies this
      ensures pool == v
      ensures id == old(id) && name == old(name) && sepId == old(sepId)
      ensures tenantId == old(tenantId) && rgid == old(rgid)
    {
      pool := v;
    }
  }

  /**
   * `dataSourceImageRead`. On success the state id is the decimal text of the
   * chosen image's id and the state's SEP id and pool are the image's; the
   * name, tenant and resource group stay. On any error the state is untouched.
   */
  method ReadImage(d: ResourceData, api: QueryValues -> Result<string, Error>,
                   decode: string -> Result<seq<Candidate>, Error>) returns (err: Option<Error>)
    modifies d
    ensures match ReadOutcome(old(d.LookupCriteria()), api, decode)
      case Success(c) =>
        && err == None
        && d.id == DecimalString(c.id) && d.sepId == c.sepId && d.pool == c.pool
        && d.name == old(d.name) && d.tenantId == old(d.tenantId) && d.rgid == old(d.rgid)
        && d.LookupCriteria() == WrittenBack(old(d.LookupCriteria()), c)
      case Failure(e) =>
        err == Some(e) && unchanged(d)
  {
    var name := d.name;
    var rgid := GetOkInt(d.rgid);
    var tenantId := GetOkInt(d.tenantId);
    var sepId := GetOkInt(d.sepId);
    var pool := GetOkString(d.pool);
    var crit := Criteria(name, pool, sepId, tenantId, rgid);

    var urlValues := new UrlValues();
    if tenantId.Some? {
      var v := DecimalString(tenantId.value);
      assert ValuesOf(urlValues.entries, AccountIdKey) + [v] == [v];
      urlValues.Add(AccountIdKey, v);
    }
    assert urlValues.entries == QueryHints(tenantId, None);
    if rgid.Some? {
      var v := DecimalString(rgid.value);
      assert ValuesOf(urlValues.entries, CloudspaceIdKey) + [v] == [v];
      urlValues.Add(CloudspaceIdKey, v);
    }
    assert urlValues.entries == QueryHints(tenantId, rgid);

    var body := api(urlValues.entries);
    if body.Failure? {
      return Some(body.error);
    }
    var model := decode(body.value);
    if model.Failure? {
      return Some(model.error);
    }

    var found := SelectImage(model.value, crit);
    if found.Some? {
      var item := model.value[found.value];
      d.SetId(DecimalString(item.id));
      d.SetSepId(item.sepId);
      d.SetPool(item.pool);
      return None;
    }
    return Some(NotFound(name));
  }
}
