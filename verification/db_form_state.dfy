/** The deployed-forms state: forms stored under their key and under their id
    and version, the version bookkeeping per form id, and a read-through cache
    of the latest form per tenant and form id. */
module FormState {
  import opened Wrappers
  import opened JavaText

  /** The version bookkeeping's answer for a form id with no known version. */
  const DefaultVersionValue: int := 0

  /** A deployed form as recorded and as persisted. */
  datatype Form = Form(
    formId: string,
    version: int,
    formKey: int,
    resourceName: string,
    checksum: seq<bv8>,
    resource: seq<bv8>,
    tenantId: string,
    deploymentKey: int)

  /** Keys of the two tables, of the version bookkeeping and of the cache. */
  type FormKey = (string, int)             // (tenant, formKey)
  type IdAndVersionKey = (string, string, int)  // (tenant, formId, version)
  type FormIdKey = (string, string)        // (tenant, formId)

  /** The latest of a form id's known versions, or the default when none. */
  function LatestOf(versions: seq<int>): (m: int)
    ensures versions == [] ==> m == DefaultVersionValue
    ensures versions != [] ==> m in versions
    ensures forall v :: v in versions ==> v <= m
  {
    if versions == [] then DefaultVersionValue
    else
      var rest := LatestOf(versions[1..]);
      assert forall v :: v in versions ==> v == versions[0] || v in versions[1..];
      if versions[1..] == [] || versions[0] >= rest then versions[0] else rest
  }

  /** The versions with every occurrence of `v` dropped. */
  function Without(versions: seq<int>, v: int): (r: seq<int>)
    ensures forall w :: w in r <==> w in versions && w != v
    ensures |r| <= |versions|
  {
    if versions == [] then []
    else if versions[0] == v then Without(versions[1..], v)
    else [versions[0]] + Without(versions[1..], v)
  }

  class DbFormState {
    /** The FORMS table, by (tenant, form key). */
    var formsByKey: map<FormKey, Form>
    /** The FORM_BY_ID_AND_VERSION table, by (tenant, form id, version). */
    var formByIdAndVersion: map<IdAndVersionKey, Form>
    /** The version bookkeeping: the known versions of each form id, and the
        highest version ever added for it. */
    var knownVersions: map<FormIdKey, seq<int>>
    var highestVersions: map<FormIdKey, int>
    /** The latest-form cache, by (tenant, form id). */
    var cache: map<FormIdKey, Form>

    constructor ()
      ensures formsByKey == map[] && formByIdAndVersion == map[] && cache == map[]
      ensures knownVersions == map[] && highestVersions == map[]
    {
      formsByKey, formByIdAndVersion, cache := map[], map[], map[];
      knownVersions, highestVersions := map[], map[];
    }

    /** The version the bookkeeping calls latest for a form id. */
    function LatestVersion(formId: string, tenantId: string): (v: int)
      reads this
      ensures (tenantId, formId) !in knownVersions ==> v == DefaultVersionValue
      ensures (tenantId, formId) in knownVersions && knownVersions[(tenantId, formId)] != [] ==>
                v in knownVersions[(tenantId, formId)]
      ensures (tenantId, formId) in knownVersions ==>
                forall w :: w in knownVersions[(tenantId, formId)] ==> w <= v
      ensures (tenantId, formId) in knownVersions && knownVersions[(tenantId, formId)] == [] ==>
                v == DefaultVersionValue
    {
      if (tenantId, formId) in knownVersions then LatestOf(knownVersions[(tenantId, formId)])
      else DefaultVersionValue
    }

    /** The highest version ever added for a form id, or the default. */
    function HighestVersion(formId: string, tenantId: string): (v: int)
      reads this
      ensures (tenantId, formId) !in highestVersions ==> v == DefaultVersionValue
      ensures (tenantId, formId) in highestVersions ==> v == highestVersions[(tenantId, formId)]
    {
      if (tenantId, formId) in highestVersions then highestVersions[(tenantId, formId)]
      else DefaultVersionValue
    }

    /** What an uncached lookup of the latest form finds in the tables. */
    ghost function LatestFormById(formId: string, tenantId: string): Option<Form>
      reads this
    {
      var k := (tenantId, formId, LatestVersion(formId, tenantId));
      if k in formByIdAndVersion then Some(formByIdAndVersion[k]) else None
    }

    /** Every cached form is what the tables give as that form id's latest. */
    ghost predicate CacheAgrees()
      reads this
    {
      forall key :: key in cache ==> LatestFormById(key.1, key.0) == Some(cache[key])
    }

    /** Upsert under (tenant, form key), and cache the form under its id. */
    method StoreFormInFormColumnFamily(record: Form)
      modifies this
      ensures formsByKey == old(formsByKey)[(record.tenantId, record.formKey) := record]
      ensures cache == old(cache)[(record.tenantId, record.formId) := record]
      ensures FindFormByKey(record.formKey, record.tenantId) == Some(record)
      ensures formByIdAndVersion == old(formByIdAndVersion)
      ensures knownVersions == old(knownVersions) && highestVersions == old(highestVersions)
    {
      formsByKey := formsByKey[(record.tenantId, record.formKey) := record];
      cache := cache[(record.tenantId, record.formId) := record];
    }

    /** Upsert under (tenant, form id, version); the cache is left alone. */
    method StoreFormInFormByIdAndVersionColumnFamily(record: Form)
      modifies this
      ensures formByIdAndVersion == old(formByIdAndVersion)[(record.tenantId, record.formId, record.version) := record]
      ensures formsByKey == old(formsByKey) && cache == old(cache)
      ensures knownVersions == old(knownVersions) && highestVersions == old(highestVersions)
    {
      formByIdAndVersion := formByIdAndVersion[(record.tenantId, record.formId, record.version) := record];
    }

    /** Record the form's version as known, raising the highest version if
        it is higher. */
    method UpdateLatestVersion(record: Form)
      modifies this
      ensures var key := (record.tenantId, record.formId);
              && key in knownVersions
              && (forall v :: v in knownVersions[key] <==>
                    v == record.version || (key in old(knownVersions) && v in old(knownVersions)[key]))
              && knownVersions == old(knownVersions)[key := knownVersions[key]]
              && highestVersions == old(highestVersions)[key :=
                   if key in old(highestVersions) && old(highestVersions)[key] >= record.version
                   then old(highestVersions)[key] else record.version]
      ensures LatestVersion(record.formId, record.tenantId) >= record.version
      ensures formsByKey == old(formsByKey) && formByIdAndVersion == old(formByIdAndVersion)
      ensures cache == old(cache)
    {
      var key := (record.tenantId, record.formId);
      var known := if key in knownVersions then knownVersions[key] else [];
      if record.version !in known {
        known := known + [record.version];
      }
      knownVersions := knownVersions[key := known];
      if key !in highestVersions || highestVersions[key] < record.version {
        highestVersions := highestVersions[key := record.version];
      }
    }

    /** Delete the (tenant, form key) entry, which must exist, and evict the
        form id's cache entry. */
    method DeleteFormInFormsColumnFamily(record: Form)
      requires (record.tenantId, record.formKey) in formsByKey
      modifies this
      ensures formsByKey == old(formsByKey) - {(record.tenantId, record.formKey)}
      ensures cache == old(cache) - {(record.tenantId, record.formId)}
      ensures FindFormByKey(record.formKey, record.tenantId) == None
      ensures formByIdAndVersion == old(formByIdAndVersion)
      ensures knownVersions == old(knownVersions) && highestVersions == old(highestVersions)
    {
      formsByKey := formsByKey - {(record.tenantId, record.formKey)};
      cache := cache - {(record.tenantId, record.formId)};
    }

    /** Delete the (tenant, form id, version) entry, which must exist; the
        cache is left alone. */
    method DeleteFormInFormByIdAndVersionColumnFamily(record: Form)
      requires (record.tenantId, record.formId, record.version) in formByIdAndVersion
      modifies this
      ensures formByIdAndVersion == old(formByIdAndVersion) - {(record.tenantId, record.formId, record.version)}
      ensures formsByKey == old(formsByKey) && cache == old(cache)
      ensures knownVersions == old(knownVersions) && highestVersions == old(highestVersions)
    {
      formByIdAndVersion := formByIdAndVersion - {(record.tenantId, record.formId, record.version)};
    }

    /** Forget the form's version; the highest version stays as it was. */
    method DeleteFormInFormVersionColumnFamily(record: Form)
      modifies this
      ensures var key := (record.tenantId, record.formId);
              knownVersions == if key in old(knownVersions)
                               then old(knownVersions)[key := Without(old(knownVersions)[key], record.version)]
                               else old(knownVersions)
      ensures record.version !in (if (record.tenantId, record.formId) in knownVersions
                                  then knownVersions[(record.tenantId, record.formId)] else [])
      ensures highestVersions == old(highestVersions)
      ensures formsByKey == old(formsByKey) && formByIdAndVersion == old(formByIdAndVersion)
      ensures cache == old(cache)
    {
      var key := (record.tenantId, record.formId);
      if key in knownVersions {
        knownVersions := knownVersions[key := Without(knownVersions[key], record.version)];
      }
    }

    /** The latest form of an id: from the cache when present there; otherwise
        the (tenant, id, latest version) entry, which is then cached. Either
        way a found form is left in the cache, so asking again gives the same
        answer. When the cache agrees with the tables, the answer is the
        uncached one. */
    method FindLatestFormById(formId: string, tenantId: string) returns (r: Option<Form>)
      modifies this
      ensures var key := (tenantId, formId);
              var tableKey := (tenantId, formId, old(LatestVersion(formId, tenantId)));
              && (key in old(cache) ==> r == Some(old(cache)[key]) && cache == old(cache))
              && (key !in old(cache) && tableKey in formByIdAndVersion ==>
                    r == Some(formByIdAndVersion[tableKey]) && cache == old(cache)[key := r.value])
              && (key !in old(cache) && tableKey !in formByIdAndVersion ==>
                    r == None && cache == old(cache))
      ensures r.Some? <==> (tenantId, formId) in cache
      ensures r.Some? ==> cache[(tenantId, formId)] == r.value
      ensures old(CacheAgrees()) ==> CacheAgrees() && r == LatestFormById(formId, tenantId)
      ensures formsByKey == old(formsByKey) && formByIdAndVersion == old(formByIdAndVersion)
      ensures knownVersions == old(knownVersions) && highestVersions == old(highestVersions)
    {
      var key := (tenantId, formId);
      if key in cache {
        return Some(cache[key]);
      }
      var latestVersion := LatestVersion(formId, tenantId);
      var tableKey := (tenantId, formId, latestVersion);
      if tableKey !in formByIdAndVersion {
        return None;
      }
      var copiedForm := formByIdAndVersion[tableKey];
      cache := cache[key := copiedForm];
      r := Some(copiedForm);
    }

    /** The form stored under (tenant, form key), if any; the cache is not
        involved. */
    function FindFormByKey(formKey: int, tenantId: string): (r: Option<Form>)
      reads this
      ensures r.Some? <==> (tenantId, formKey) in formsByKey
      ensures r.Some? ==> r.value == formsByKey[(tenantId, formKey)]
    {
      if (tenantId, formKey) in formsByKey then Some(formsByKey[(tenantId, formKey)]) else None
    }

    /** The highest version narrowed to a Java `int`, plus one in `int`
        arithmetic: the next version whenever the highest is below the `int`
        maximum. */
    function GetNextFormVersion(formId: string, tenantId: string): (v: int)
      reads this
      ensures IsInt32(v)
      ensures -TwoTo31 <= HighestVersion(formId, tenantId) < TwoTo31 - 1 ==>
                v == HighestVersion(formId, tenantId) + 1
      ensures HighestVersion(formId, tenantId) == TwoTo31 - 1 ==> v == -TwoTo31
    {
      WrapInt32(WrapInt32(HighestVersion(formId, tenantId)) + 1)
    }

    /** Empty the cache; the tables and the version bookkeeping keep their
        contents, so the cache then trivially agrees with them. */
    method ClearCache()
      modifies this
      ensures cache == map[]
      ensures CacheAgrees()
      ensures formsByKey == old(formsByKey) && formByIdAndVersion == old(formByIdAndVersion)
      ensures knownVersions == old(knownVersions) && highestVersions == old(highestVersions)
    {
      cache := map[];
    }
  }
}
