/** An idealised platform answering the app query: it lists, in catalogue
    order, every deployed app that satisfies all `q` filters of the query,
    where `name:<n>` holds of an app named `n` and `space_guid:<s>` of an app
    in space `s`. Against such a platform the resolution step finds exactly
    the one app of that name in the job's space, and reports the two ways
    that can fail. */
module Platform {

  import opened UrlValues
  import opened CloudFoundryTask

  /** An app as the platform stores it, with the space it belongs to. */
  datatype Deployed = Deployed(guid: string, name: string, spaceGuid: string)

  predicate Satisfies(d: Deployed, filter: string)
  {
    filter == "name:" + d.name || filter == "space_guid:" + d.spaceGuid
  }

  predicate SatisfiesAll(d: Deployed, filters: seq<string>)
  {
    forall f :: f in filters ==> Satisfies(d, f)
  }

  /** `ListAppsByQuery` on this platform. */
  function ListAppsByQuery(catalog: seq<Deployed>, v: Values): seq<App>
  {
    if catalog == [] then []
    else
      var d := catalog[0];
      (if SatisfiesAll(d, ValuesOf(v, "q")) then [App(d.guid, d.name)] else []) + ListAppsByQuery(catalog[1..], v)
  }

  /** The reference answer, stated without query strings: the deployed apps
      with this name in this space. */
  function InSpace(catalog: seq<Deployed>, appName: string, spaceId: string): (found: seq<Deployed>)
    ensures forall d :: d in found ==> d in catalog && d.name == appName && d.spaceGuid == spaceId
  {
    if catalog == [] then []
    else
      var d := catalog[0];
      (if d.name == appName && d.spaceGuid == spaceId then [d] else []) + InSpace(catalog[1..], appName, spaceId)
  }

  /** An app satisfies both filters of `AppQuery` exactly when it has the
      app's name and lives in the space: the two filters are a conjunction,
      and neither can be mistaken for the other. */
  lemma QueryFiltersAreConjunction(d: Deployed, appName: string, spaceId: string)
    ensures SatisfiesAll(d, AppQuery(appName, spaceId)["q"]) <==> d.name == appName && d.spaceGuid == spaceId
  {
    var byName, bySpace := "name:" + appName, "space_guid:" + spaceId;
    assert byName[0] == 'n' && bySpace[0] == 's';
    if byName == "name:" + d.name {
      assert appName == byName[5..] == d.name;
    }
    if bySpace == "space_guid:" + d.spaceGuid {
      assert spaceId == bySpace[11..] == d.spaceGuid;
    }
    assert byName in AppQuery(appName, spaceId)["q"];
    assert bySpace in AppQuery(appName, spaceId)["q"];
  }

  /** The platform's answer to `AppQuery` lists exactly the apps with that
      name in that space, in catalogue order. */
  lemma {:induction false} QueryListsAppsInSpace(catalog: seq<Deployed>, appName: string, spaceId: string)
    ensures var apps, found := ListAppsByQuery(catalog, AppQuery(appName, spaceId)), InSpace(catalog, appName, spaceId);
            |apps| == |found| &&
            forall i :: 0 <= i < |apps| ==> apps[i] == App(found[i].guid, found[i].name)
  {
    if catalog != [] {
      QueryFiltersAreConjunction(catalog[0], appName, spaceId);
      QueryListsAppsInSpace(catalog[1..], appName, spaceId);
    }
  }

  /** Resolution against this platform: the job's app resolves exactly when
      one app of that name is deployed in the job's space, to that app's
      GUID; none gives "not found", several give "not unique", and a
      same-named app in another space is never picked. */
  lemma ResolvesTheAppInSpace(job: Job, space: Space, catalog: seq<Deployed>)
    ensures var r := AppGuid(job, space, Ok(ListAppsByQuery(catalog, AppQuery(job.appName, space.spaceId))));
            var found := InSpace(catalog, job.appName, space.spaceId);
            (r.Ok? <==> |found| == 1) &&
            (r.Ok? ==> r.value == found[0].guid && found[0] in catalog &&
                       found[0].name == job.appName && found[0].spaceGuid == space.spaceId) &&
            (found == [] ==> r == Err(AppNotFound(job.appName, space.spaceName))) &&
            (|found| > 1 ==> r == Err(AppNotUnique(job.appName, space.spaceName)))
  {
    QueryListsAppsInSpace(catalog, job.appName, space.spaceId);
  }
}
