/**
 * The `isard_groups` data source: the server's groups, filtered by an
 * optional name substring and an optional parent category, copied into
 * state in order.
 */
module GroupsDataSource {
  import opened Wrappers
  import opened Transport
  import opened Terraform

  /** The fields of a fetched group that the data source reads. */
  datatype Group = Group(id: string, name: string, description: string, parentCategory: string)

  /** `groupModel`. */
  datatype GroupModel = GroupModel(
    id: TfValue<string>, name: TfValue<string>, description: TfValue<string>, parentCategory: TfValue<string>)

  /** `groupsDataSourceModel`. */
  datatype GroupsModel = GroupsModel(
    id: TfValue<string>, nameFilter: TfValue<string>, categoryId: TfValue<string>, groups: seq<GroupModel>)

  /**
   * Whether a group survives the two filters; an empty filter lets every
   * group through.  `contains` stands for the source's `containsIgnoreCase`,
   * whose definition is not part of this model.
   */
  predicate Passes(g: Group, nameFilter: string, categoryFilter: string, contains: (string, string) -> bool) {
    && (nameFilter == "" || contains(g.name, nameFilter))
    && (categoryFilter == "" || g.parentCategory == categoryFilter)
  }

  /** The groups that pass, in their original order. */
  function Filtered(groups: seq<Group>, nameFilter: string, categoryFilter: string,
                    contains: (string, string) -> bool): seq<Group>
  {
    if groups == [] then []
    else
      var last := groups[|groups| - 1];
      Filtered(groups[..|groups| - 1], nameFilter, categoryFilter, contains) +
      (if Passes(last, nameFilter, categoryFilter, contains) then [last] else [])
  }

  function ModelOf(g: Group): GroupModel {
    GroupModel(Known(g.id), Known(g.name), Known(g.description), Known(g.parentCategory))
  }

  /** The first loop: append every group that passes both filters. */
  method FilterGroups(groups: seq<Group>, nameFilter: string, categoryFilter: string,
                      contains: (string, string) -> bool)
    returns (filteredGroups: seq<Group>)
    ensures filteredGroups == Filtered(groups, nameFilter, categoryFilter, contains)
  {
    filteredGroups := [];
    var i := 0;
    while i < |groups|
      invariant 0 <= i <= |groups|
      invariant filteredGroups == Filtered(groups[..i], nameFilter, categoryFilter, contains)
    {
      var group := groups[i];
      assert groups[..i + 1][..i] == groups[..i];
      i := i + 1;
      if nameFilter != "" && !contains(group.name, nameFilter) {
        continue;
      }
      if categoryFilter != "" && group.parentCategory != categoryFilter {
        continue;
      }
      filteredGroups := filteredGroups + [group];
    }
    assert groups[..|groups|] == groups;
  }

  /** The second loop: a fresh slice of the same length, entry i copied from group i. */
  method ToGroupModels(filteredGroups: seq<Group>) returns (models: seq<GroupModel>)
    ensures |models| == |filteredGroups|
    ensures forall i :: 0 <= i < |filteredGroups| ==> models[i] == ModelOf(filteredGroups[i])
  {
    var out := new GroupModel[|filteredGroups|];
    for i := 0 to |filteredGroups|
      invariant forall j :: 0 <= j < i ==> out[j] == ModelOf(filteredGroups[j])
    {
      var group := filteredGroups[i];
      out[i] := GroupModel(Known(group.id), Known(group.name), Known(group.description), Known(group.parentCategory));
    }
    models := out[..];
  }

  /**
   * `Read`: a failed fetch is reported and sets no state; otherwise the
   * filtered groups are stored under the ID "groups".  `fetched` is what
   * `GetGroups` returned.
   */
  method Read(config: GroupsModel, fetched: Result<seq<Group>, Error>, contains: (string, string) -> bool,
              resp: StateResponse<GroupsModel>)
    modifies resp
    ensures fetched.Failure? ==>
              && resp.state == old(resp.state)
              && resp.diagnostics == old(resp.diagnostics) + [ErrorDiagnostic("Client Error", Cause(fetched.error))]
    ensures fetched.Success? ==>
              var kept := Filtered(fetched.value, ValueString(config.nameFilter), ValueString(config.categoryId), contains);
              && resp.diagnostics == old(resp.diagnostics)
              && resp.state.Some?
              && resp.state.value.id == Known("groups")
              && resp.state.value.nameFilter == config.nameFilter
              && resp.state.value.categoryId == config.categoryId
              && |resp.state.value.groups| == |kept|
              && forall i :: 0 <= i < |kept| ==> resp.state.value.groups[i] == ModelOf(kept[i])
  {
    if fetched.Failure? {
      resp.AddError("Client Error", Cause(fetched.error));
      return;
    }
    var nameFilter := ValueString(config.nameFilter);
    var categoryFilter := ValueString(config.categoryId);
    var filteredGroups := FilterGroups(fetched.value, nameFilter, categoryFilter, contains);
    var data := config;
    var models := ToGroupModels(filteredGroups);
    data := data.(groups := models);
    data := data.(id := Known("groups"));
    resp.Set(data);
  }

  // ---------------------------------------------------------------------
  // What the filter keeps

  /** `r` is `s` with some elements left out and the rest in their order. */
  ghost predicate IsSubsequence<T>(r: seq<T>, s: seq<T>) {
    exists idx: seq<int> ::
      && |idx| == |r|
      && (forall i :: 0 <= i < |idx| ==> 0 <= idx[i] < |s| && r[i] == s[idx[i]])
      && (forall i, j :: 0 <= i < j < |idx| ==> idx[i] < idx[j])
  }

  /** The positions in `groups` of the groups that pass. */
  ghost function KeptPositions(groups: seq<Group>, nameFilter: string, categoryFilter: string,
                               contains: (string, string) -> bool): seq<int>
  {
    if groups == [] then []
    else
      KeptPositions(groups[..|groups| - 1], nameFilter, categoryFilter, contains) +
      (if Passes(groups[|groups| - 1], nameFilter, categoryFilter, contains) then [|groups| - 1] else [])
  }

  lemma {:induction false} KeptPositionsIndex(groups: seq<Group>, nameFilter: string, categoryFilter: string,
                                              contains: (string, string) -> bool)
    ensures var idx := KeptPositions(groups, nameFilter, categoryFilter, contains);
            var kept := Filtered(groups, nameFilter, categoryFilter, contains);
            && |idx| == |kept|
            && (forall i :: 0 <= i < |idx| ==> 0 <= idx[i] < |groups| && kept[i] == groups[idx[i]])
            && (forall i, j :: 0 <= i < j < |idx| ==> idx[i] < idx[j])
  {
    if groups != [] {
      var init := groups[..|groups| - 1];
      KeptPositionsIndex(init, nameFilter, categoryFilter, contains);
      var idx0 := KeptPositions(init, nameFilter, categoryFilter, contains);
      assert forall i :: 0 <= i < |idx0| ==> idx0[i] < |init|;
    }
  }

  /** The filtered list is an order-preserving subsequence of the fetched one. */
  lemma FilteredIsSubsequence(groups: seq<Group>, nameFilter: string, categoryFilter: string,
                              contains: (string, string) -> bool)
    ensures IsSubsequence(Filtered(groups, nameFilter, categoryFilter, contains), groups)
  {
    KeptPositionsIndex(groups, nameFilter, categoryFilter, contains);
    var idx := KeptPositions(groups, nameFilter, categoryFilter, contains);
    assert |idx| == |Filtered(groups, nameFilter, categoryFilter, contains)|;
  }

  /** A group is kept exactly when it was fetched and passes both filters. */
  lemma {:induction false} FilteredMembers(groups: seq<Group>, nameFilter: string, categoryFilter: string,
                                           contains: (string, string) -> bool, g: Group)
    ensures g in Filtered(groups, nameFilter, categoryFilter, contains) <==>
              g in groups && Passes(g, nameFilter, categoryFilter, contains)
  {
    if groups != [] {
      var init := groups[..|groups| - 1];
      FilteredMembers(init, nameFilter, categoryFilter, contains, g);
      assert groups == init + [groups[|groups| - 1]];
    }
  }

  /** With both filters empty (or null) every fetched group is kept, in order. */
  lemma {:induction false} EmptyFiltersKeepAll(groups: seq<Group>, contains: (string, string) -> bool)
    ensures Filtered(groups, "", "", contains) == groups
  {
    if groups != [] {
      EmptyFiltersKeepAll(groups[..|groups| - 1], contains);
      assert groups == groups[..|groups| - 1] + [groups[|groups| - 1]];
    }
  }
}
