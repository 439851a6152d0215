/** The in-memory organization store (`MockDb`'s `OrganizationInterface`,
    `db/organization.rs`): insert refuses a duplicate org id, find returns the
    first record with the id, and update returns the updated record. */
module OrganizationStore {
  import opened Common

  datatype Organization = Organization(
    orgId: string, orgName: Option<string>, organizationDetails: Option<string>, metadata: Option<string>,
    createdAt: int, modifiedAt: int)

  datatype OrganizationNew = OrganizationNew(
    orgId: string, orgName: Option<string>, organizationDetails: Option<string>, metadata: Option<string>)

  /** `OrganizationUpdate::Update`: the three columns are replaced as given
      (a `None` clears the column). */
  datatype OrganizationUpdate = Update(orgName: Option<string>, organizationDetails: Option<string>, metadata: Option<string>)

  /** `ValueNotFound` carries the text "No organization available for
      org_id = …"; the model keeps the id it names. */
  datatype StorageError = DuplicateValue(entity: string, key: Option<string>) | ValueNotFound(orgId: string)

  /** No two records share an org id. */
  predicate UniqueIds(orgs: seq<Organization>) {
    forall i, j :: 0 <= i < j < |orgs| ==> orgs[i].orgId != orgs[j].orgId
  }

  /** The position of the first record with `orgId`, the one `iter().find` yields. */
  function FirstIndex(orgs: seq<Organization>, orgId: string): (k: Option<nat>)
    ensures k.None? <==> forall i :: 0 <= i < |orgs| ==> orgs[i].orgId != orgId
    ensures k.Some? ==> k.value < |orgs| && orgs[k.value].orgId == orgId
                        && forall i :: 0 <= i < k.value ==> orgs[i].orgId != orgId
  {
    if orgs == [] then None
    else if orgs[0].orgId == orgId then Some(0)
    else
      var rest := FirstIndex(orgs[1..], orgId);
      if rest.None? then None else Some(rest.value + 1)
  }

  /** With unique ids the first match is the only match. */
  lemma FirstIndexOfUnique(orgs: seq<Organization>, i: nat)
    requires UniqueIds(orgs) && i < |orgs|
    ensures FirstIndex(orgs, orgs[i].orgId) == Some(i)
  {
  }

  /** The record `update_organization_by_org_id` builds: the three updatable
      columns from the update, the id and both timestamps from the stored record
      (so applying the same update twice is the same as applying it once). */
  function ApplyUpdate(org: Organization, update: OrganizationUpdate): (o: Organization)
    ensures o.orgId == org.orgId && o.createdAt == org.createdAt && o.modifiedAt == org.modifiedAt
    ensures o.orgName == update.orgName && o.organizationDetails == update.organizationDetails
    ensures o.metadata == update.metadata
  {
    org.(orgName := update.orgName, organizationDetails := update.organizationDetails, metadata := update.metadata)
  }

  class MockDb {
    /** The store's organization list, in insertion order. */
    var organizations: seq<Organization>

    constructor ()
      ensures organizations == []
    {
      organizations := [];
    }

    /** `insert_organization`: refuse an id already present; otherwise append
        the new record, stamped with `now` as both creation and modification time. */
    method InsertOrganization(org: OrganizationNew, now: int) returns (r: Result<Organization, StorageError>)
      modifies this
      ensures FirstIndex(old(organizations), org.orgId).Some? ==>
        r == Err(DuplicateValue("org_id", None)) && organizations == old(organizations)
      ensures FirstIndex(old(organizations), org.orgId).None? ==>
        && r == Ok(Organization(org.orgId, org.orgName, org.organizationDetails, org.metadata, now, now))
        && organizations == old(organizations) + [r.value]
      ensures UniqueIds(old(organizations)) ==> UniqueIds(organizations)
    {
      var i := 0;
      while i < |organizations|
        invariant 0 <= i <= |organizations|
        invariant forall k :: 0 <= k < i ==> organizations[k].orgId != org.orgId
      {
        if organizations[i].orgId == org.orgId {
          return Err(DuplicateValue("org_id", None));
        }
        i := i + 1;
      }
      var created := Organization(org.orgId, org.orgName, org.organizationDetails, org.metadata, now, now);
      organizations := organizations + [created];
      return Ok(created);
    }

    /** `find_organization_by_org_id`: the first record with the id, or not found. */
    method FindOrganizationByOrgId(orgId: string) returns (r: Result<Organization, StorageError>)
      ensures FirstIndex(organizations, orgId).None? ==> r == Err(ValueNotFound(orgId))
      ensures FirstIndex(organizations, orgId).Some? ==> r == Ok(organizations[FirstIndex(organizations, orgId).value])
      ensures r.Ok? ==> r.value.orgId == orgId && r.value in organizations
    {
      var i := 0;
      while i < |organizations|
        invariant 0 <= i <= |organizations|
        invariant forall k :: 0 <= k < i ==> organizations[k].orgId != orgId
      {
        if organizations[i].orgId == orgId {
          return Ok(organizations[i]);
        }
        i := i + 1;
      }
      return Err(ValueNotFound(orgId));
    }

    /** `update_organization_by_org_id` as written: the updated record is built
        from the first match and returned, but the stored list is never changed. */
    method UpdateOrganizationByOrgId(orgId: string, update: OrganizationUpdate) returns (r: Result<Organization, StorageError>)
      ensures FirstIndex(organizations, orgId).None? ==> r == Err(ValueNotFound(orgId))
      ensures FirstIndex(organizations, orgId).Some? ==>
        r == Ok(ApplyUpdate(organizations[FirstIndex(organizations, orgId).value], update))
    {
      var i := 0;
      while i < |organizations|
        invariant 0 <= i <= |organizations|
        invariant forall k :: 0 <= k < i ==> organizations[k].orgId != orgId
      {
        if organizations[i].orgId == orgId {
          return Ok(ApplyUpdate(organizations[i], update));
        }
        i := i + 1;
      }
      return Err(ValueNotFound(orgId));
    }

    /** The update as evidently intended: the record returned is also the one
        stored, in the place of the first match; nothing else changes. */
    method UpdateOrganizationByOrgIdPersisted(orgId: string, update: OrganizationUpdate)
      returns (r: Result<Organization, StorageError>)
      modifies this
      ensures FirstIndex(old(organizations), orgId).None? ==>
        r == Err(ValueNotFound(orgId)) && organizations == old(organizations)
      ensures FirstIndex(old(organizations), orgId).Some? ==>
        var k := FirstIndex(old(organizations), orgId).value;
        && r == Ok(ApplyUpdate(old(organizations)[k], update))
        && organizations == old(organizations)[k := r.value]
      ensures UniqueIds(old(organizations)) ==> UniqueIds(organizations)
    {
      var i := 0;
      while i < |organizations|
        invariant 0 <= i <= |organizations|
        invariant organizations == old(organizations)
        invariant forall k :: 0 <= k < i ==> organizations[k].orgId != orgId
      {
        if organizations[i].orgId == orgId {
          var updated := ApplyUpdate(organizations[i], update);
          organizations := organizations[i := updated];
          return Ok(updated);
        }
        i := i + 1;
      }
      return Err(ValueNotFound(orgId));
    }
  }

  /** An update followed by a find, as written: the find still returns the
      record as it was before the update, so a changing update is lost. */
  method UpdateThenFindAsWritten(db: MockDb, orgId: string, update: OrganizationUpdate)
    returns (updated: Result<Organization, StorageError>, found: Result<Organization, StorageError>)
    requires FirstIndex(db.organizations, orgId).Some?
    ensures var before := db.organizations[FirstIndex(db.organizations, orgId).value];
      && updated == Ok(ApplyUpdate(before, update))
      && found == Ok(before)
    ensures ApplyUpdate(found.value, update) != found.value ==> found != updated
  {
    updated := db.UpdateOrganizationByOrgId(orgId, update);
    found := db.FindOrganizationByOrgId(orgId);
  }

  /** A concrete instance of the lost update: renaming the only organization
      and reading it back still yields the old name. */
  method LostRenameExample() returns (found: Result<Organization, StorageError>)
    ensures found.Ok? && found.value.orgName == Some("old")
  {
    var db := new MockDb();
    var inserted := db.InsertOrganization(OrganizationNew("org_1", Some("old"), None, None), 0);
    var updated, f := UpdateThenFindAsWritten(db, "org_1", Update(Some("new"), None, None));
    found := f;
  }

  /** With the corrected update, a find reads back exactly what the update returned. */
  method UpdateThenFindPersisted(db: MockDb, orgId: string, update: OrganizationUpdate)
    returns (updated: Result<Organization, StorageError>, found: Result<Organization, StorageError>)
    requires FirstIndex(db.organizations, orgId).Some?
    modifies db
    ensures updated.Ok? && found == updated
    ensures found.value == ApplyUpdate(old(db.organizations)[FirstIndex(old(db.organizations), orgId).value], update)
  {
    ghost var k := FirstIndex(db.organizations, orgId).value;
    updated := db.UpdateOrganizationByOrgIdPersisted(orgId, update);
    assert db.organizations[k].orgId == orgId;
    assert forall i :: 0 <= i < k ==> db.organizations[i].orgId != orgId;
    found := db.FindOrganizationByOrgId(orgId);
  }

  /** Insert then find: a newly inserted organization is found as inserted. */
  method InsertThenFind(db: MockDb, org: OrganizationNew, now: int)
    returns (inserted: Result<Organization, StorageError>, found: Result<Organization, StorageError>)
    requires FirstIndex(db.organizations, org.orgId).None?
    modifies db
    ensures inserted.Ok? && found == inserted
    ensures found.value.createdAt == now && found.value.orgName == org.orgName
  {
    ghost var k := |db.organizations|;
    inserted := db.InsertOrganization(org, now);
    assert db.organizations[k].orgId == org.orgId;
    assert forall i :: 0 <= i < k ==> db.organizations[i].orgId != org.orgId;
    found := db.FindOrganizationByOrgId(org.orgId);
  }
}
