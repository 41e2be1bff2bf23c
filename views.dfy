/** The decisions taken by the admin pages (geokey_dataimports/views.py),
    lifted out of the request handling.

    Requests, messages, templates and permission checks are not modelled: a
    view here takes the values it reads from the request as parameters, works
    on the `Database` of the Models module, and answers with a `Response`
    that says which page is rendered or redirected to and why. */
module Views {
  import opened Base
  import opened Models

  datatype Page = SingleDataImportPage | AllDataImportsPage | AssignFieldsPage | CreateCategoryPage

  /** Why a view refuses to go on (the error message it shows). */
  datatype Refusal =
    | NotFound
    | ProjectLocked
    | UnsupportedFileType
    | CategoryAlreadySet
    | NoCategory
    | FieldsAlreadyAssigned

  /** A rendered page carrying an error, or a redirect with an optional error. */
  datatype Response = Render(refusal: Refusal) | Redirect(page: Page, warning: Option<Refusal>)

  // ---------------------------------------------------------------------
  // IndexPage.get_context_data: the filter table and the filtered projects
  // ---------------------------------------------------------------------

  const WithoutImportsFilter := "without-data-imports-only"
  const WithImportsFilter := "with-data-imports-only"

  /** The projects that have at least one row in the import table. The join
      behind `dataimports__isnull` does not look at an import's status. */
  function ProjectsWithImports(imports: map<int, DataImport>): set<int>
  {
    set id | id in imports :: imports[id].project
  }

  /** The projects, in order, that have imports (`want`) or have none (`!want`). */
  function KeepProjects(projects: seq<int>, withImports: set<int>, want: bool): (r: seq<int>)
    ensures forall p :: p in r <==> p in projects && (p in withImports) == want
    ensures |r| <= |projects|
    decreases |projects|
  {
    if projects == [] then []
    else
      var rest := KeepProjects(projects[1..], withImports, want);
      if (projects[0] in withImports) == want then [projects[0]] + rest else rest
  }

  /** The context of the index page: `projects` are the projects the user
      administers, `filter` the query parameter. Both filter entries are
      always offered; an active filter keeps the projects without, or with,
      data imports. */
  method IndexContext(projects: seq<int>, imports: map<int, DataImport>, filter: Option<string>)
    returns (shown: seq<int>, filters: map<string, string>)
    ensures filters == map[WithoutImportsFilter := "Without data imports", WithImportsFilter := "With data imports"]
    ensures filter == Some(WithoutImportsFilter) ==>
      forall p :: p in shown <==> p in projects && p !in ProjectsWithImports(imports)
    ensures filter == Some(WithImportsFilter) ==>
      forall p :: p in shown <==> p in projects && p in ProjectsWithImports(imports)
    ensures filter != Some(WithoutImportsFilter) && filter != Some(WithImportsFilter) ==> shown == projects
  {
    shown := projects;
    filters := map[];
    var withImports := ProjectsWithImports(imports);

    var filterToAdd := WithoutImportsFilter;
    if filter == Some(filterToAdd) {
      shown := KeepProjects(shown, withImports, false);
    }
    filters := filters[filterToAdd := "Without data imports"];

    filterToAdd := WithImportsFilter;
    if filter == Some(filterToAdd) {
      shown := KeepProjects(shown, withImports, true);
    }
    filters := filters[filterToAdd := "With data imports"];
  }

  // ---------------------------------------------------------------------
  // AddDataImportPage: the format of an upload and the page that follows
  // ---------------------------------------------------------------------

  /** The content type under which a file of each format is accepted. */
  function ContentTypeOf(f: Format): string
  {
    match f
    case GeoJSON => "application/json"
    case KML => "application/vnd.google-earth.kml+xml"
    case CSV => "text/csv"
  }

  /** The format recorded for an upload's content type, or None for a file
      type the extension does not support. It is the inverse of ContentTypeOf. */
  function DataFormatFor(contentType: string): (r: Option<Format>)
    ensures r.Some? ==> ContentTypeOf(r.value) == contentType
    ensures r.None? ==> forall f: Format :: ContentTypeOf(f) != contentType
  {
    if contentType == "application/json" then Some(GeoJSON)
    else if contentType == "application/vnd.google-earth.kml+xml" then Some(KML)
    else if contentType == "text/csv" then Some(CSV)
    else None
  }

  datatype AddOutcome = NotAdded(reason: Refusal) | Added(dataformat: Format, category: Option<int>)

  /** AddDataImportPage.form_valid: whether an import is created, with which
      format and which category. `project` is the project of the page (None
      when it was not found), `categoryCreate` and `category` the posted
      fields, `projectCategories` the ids of the project's categories. A
      category that cannot be found does not stop the import. */
  function AddDataImport(project: Option<Project>, contentType: string, categoryCreate: Option<string>,
                         category: Option<int>, projectCategories: set<int>): (r: AddOutcome)
    ensures r.Added? <==> project.Some? && !project.value.islocked && DataFormatFor(contentType).Some?
    ensures r.Added? ==> ContentTypeOf(r.dataformat) == contentType
    ensures r.Added? ==> (r.category.Some? <==>
      categoryCreate == Some("false") && category.Some? && category.value in projectCategories)
    ensures r.Added? && r.category.Some? ==> r.category == category
    ensures r == NotAdded(ProjectLocked) <==> project.Some? && project.value.islocked
  {
    if project.None? then NotAdded(NotFound)
    else if project.value.islocked then NotAdded(ProjectLocked)
    else
      match DataFormatFor(contentType)
      case None => NotAdded(UnsupportedFileType)
      case Some(f) =>
        var attached :=
          if categoryCreate == Some("false") && category.Some? && category.value in projectCategories
          then category else None;
        Added(f, attached)
  }

  /** AddDataImportPage.get_success_url: assign the fields of an import that
      has a category, otherwise create one for it. */
  function SuccessPage(category: Option<int>): (r: Page)
    ensures r == AssignFieldsPage <==> category.Some?
    ensures r == CreateCategoryPage <==> category.None?
  {
    if category.Some? then AssignFieldsPage else CreateCategoryPage
  }

  /** After a successful add, the redirect goes to assigning fields exactly
      when an existing category of the project was chosen and found. */
  lemma AddRedirect(project: Option<Project>, contentType: string, categoryCreate: Option<string>,
                    category: Option<int>, projectCategories: set<int>)
    requires AddDataImport(project, contentType, categoryCreate, category, projectCategories).Added?
    ensures SuccessPage(AddDataImport(project, contentType, categoryCreate, category, projectCategories).category)
      == if categoryCreate == Some("false") && category.Some? && category.value in projectCategories
         then AssignFieldsPage else CreateCategoryPage
  {
  }

  // ---------------------------------------------------------------------
  // The guards of DataImportCreateCategoryPage and DataImportAssignFieldsPage
  // ---------------------------------------------------------------------

  /** Why a category cannot be created: the first of "project locked",
      "category already set", "fields already assigned" that holds. */
  function CreateCategoryRefusal(locked: bool, imp: DataImport): (r: Option<Refusal>)
    ensures r.None? <==> !locked && imp.category.None? && imp.keys == []
    ensures locked ==> r == Some(ProjectLocked)
    ensures !locked && imp.category.Some? ==> r == Some(CategoryAlreadySet)
    ensures !locked && imp.category.None? && imp.keys != [] ==> r == Some(FieldsAlreadyAssigned)
  {
    if locked then Some(ProjectLocked)
    else if imp.category.Some? then Some(CategoryAlreadySet)
    else if imp.keys != [] then Some(FieldsAlreadyAssigned)
    else None
  }

  /** Why fields cannot be assigned: the first of "project locked", "no
      category", "fields already assigned" that holds. */
  function AssignFieldsRefusal(locked: bool, imp: DataImport): (r: Option<Refusal>)
    ensures r.None? <==> !locked && imp.category.Some? && imp.keys == []
    ensures locked ==> r == Some(ProjectLocked)
    ensures !locked && imp.category.None? ==> r == Some(NoCategory)
    ensures !locked && imp.category.Some? && imp.keys != [] ==> r == Some(FieldsAlreadyAssigned)
  {
    if locked then Some(ProjectLocked)
    else if imp.category.None? then Some(NoCategory)
    else if imp.keys != [] then Some(FieldsAlreadyAssigned)
    else None
  }

  /** Once a category has been created for an import, no second one can be;
      fields can then be assigned exactly when the creation stored no keys. */
  lemma CreateThenAssign(imp: DataImport, newCategory: int, keys: seq<string>)
    requires CreateCategoryRefusal(false, imp).None?
    ensures CreateCategoryRefusal(false, imp.(category := Some(newCategory), keys := keys)) == Some(CategoryAlreadySet)
    ensures AssignFieldsRefusal(false, imp.(category := Some(newCategory), keys := keys)).None? <==> keys == []
  {
  }

  /** The import of a data-import page: it must exist, not be deleted and
      belong to the page's project, which must exist. */
  function ContextImport(projects: map<int, Project>, imports: map<int, DataImport>,
                         projectId: int, importId: int): (r: Option<DataImport>)
    ensures r.Some? <==> projectId in projects && Retrieve(imports, importId).Some? && imports[importId].project == projectId
    ensures r.Some? ==> r.value == imports[importId]
  {
    if projectId in projects then
      match Retrieve(imports, importId)
      case Some(imp) => if imp.project == projectId then Some(imp) else None
      case None => None
    else None
  }

  // ---------------------------------------------------------------------
  // The keys list and the rename table
  // ---------------------------------------------------------------------

  /** `dataimport.datafields.filter(id__in=ids)`: the import's data fields
      whose id was posted, in table order. */
  function SelectedFields(datafields: seq<DataField>, importId: int, ids: seq<int>): (r: seq<DataField>)
    ensures forall d :: d in r <==> d in datafields && d.dataimport == importId && d.id in ids
    ensures |r| <= |datafields|
    ensures ids == [] ==> r == []
    decreases |datafields|
  {
    if datafields == [] then []
    else
      var rest := SelectedFields(datafields[1..], importId, ids);
      var d := datafields[0];
      if d.dataimport == importId && d.id in ids then [d] + rest else rest
  }

  /** The original keys of the given data fields, in order. */
  function FieldKeys(fields: seq<DataField>): (r: seq<string>)
  {
    seq(|fields|, i requires 0 <= i < |fields| => fields[i].key)
  }

  /** The user chose an existing field of the category for `d`
      (a non-empty `existingfield_<id>` value was posted). */
  predicate ChoseExisting(existing: map<int, string>, d: DataField)
  {
    d.id in existing && existing[d.id] != ""
  }

  /** Whether `d` gets an entry in the rename table: it was mapped onto an
      existing field, or converting it produced a field with another key.
      `convertedKey(d)` is the key of the field that `convert_to_field`
      creates for `d`. */
  predicate Renames(existing: map<int, string>, convertedKey: DataField -> string, d: DataField)
  {
    ChoseExisting(existing, d) || convertedKey(d) != d.key
  }

  /** The key `d`'s values move to. */
  function RenameTarget(existing: map<int, string>, convertedKey: DataField -> string, d: DataField): string
  {
    if ChoseExisting(existing, d) then existing[d.id] else convertedKey(d)
  }

  /** `changed_keys` after the selected data fields have been visited in order. */
  function ChangedKeys(selected: seq<DataField>, existing: map<int, string>,
                       convertedKey: DataField -> string): map<string, string>
    decreases |selected|
  {
    if selected == [] then map[]
    else
      var n := |selected| - 1;
      var d := selected[n];
      var earlier := ChangedKeys(selected[..n], existing, convertedKey);
      if Renames(existing, convertedKey, d) then earlier[d.key := RenameTarget(existing, convertedKey, d)]
      else earlier
  }

  /** The first loop of DataImportAssignFieldsPage.post: collects the selected
      fields' original keys and the rename table. */
  method CollectKeys(selected: seq<DataField>, existing: map<int, string>, convertedKey: DataField -> string)
    returns (keys: seq<string>, changed: map<string, string>)
    ensures |keys| == |selected| && forall i :: 0 <= i < |selected| ==> keys[i] == selected[i].key
    ensures changed == ChangedKeys(selected, existing, convertedKey)
  {
    keys := [];
    changed := map[];
    var i := 0;
    while i < |selected|
      invariant 0 <= i <= |selected|
      invariant |keys| == i && forall j :: 0 <= j < i ==> keys[j] == selected[j].key
      invariant changed == ChangedKeys(selected[..i], existing, convertedKey)
    {
      var datafield := selected[i];
      assert selected[..i + 1][..i] == selected[..i];
      var key := if datafield.id in existing then existing[datafield.id] else "";
      if key != "" {
        changed := changed[datafield.key := key];
      } else {
        key := datafield.key;
        var fieldKey := convertedKey(datafield);
        if fieldKey != key {
          changed := changed[key := fieldKey];
        }
      }
      keys := keys + [datafield.key];
      i := i + 1;
    }
    assert selected[..i] == selected;
  }

  /** The rename table has an entry exactly for the keys of the selected
      fields that were mapped onto an existing field or converted to a
      field with a different key. */
  lemma {:induction false} ChangedKeysKeys(selected: seq<DataField>, existing: map<int, string>,
                                           convertedKey: DataField -> string)
    ensures ChangedKeys(selected, existing, convertedKey).Keys ==
      set i | 0 <= i < |selected| && Renames(existing, convertedKey, selected[i]) :: selected[i].key
    decreases |selected|
  {
    if selected != [] {
      var n := |selected| - 1;
      ChangedKeysKeys(selected[..n], existing, convertedKey);
      var before := set i | 0 <= i < n && Renames(existing, convertedKey, selected[..n][i]) :: selected[..n][i].key;
      var after := set i | 0 <= i < |selected| && Renames(existing, convertedKey, selected[i]) :: selected[i].key;
      if Renames(existing, convertedKey, selected[n]) {
        assert after == before + {selected[n].key};
      } else {
        assert after == before;
      }
    }
  }

  /** The entry for a selected field's key maps it to the existing field's
      key the user chose, or else to the converted field's key; when two
      selected fields share a key, the later one's entry is kept. */
  lemma {:induction false} ChangedKeysTarget(selected: seq<DataField>, existing: map<int, string>,
                                             convertedKey: DataField -> string, i: nat)
    requires i < |selected| && Renames(existing, convertedKey, selected[i])
    requires forall j :: i < j < |selected| && Renames(existing, convertedKey, selected[j]) ==>
      selected[j].key != selected[i].key
    ensures selected[i].key in ChangedKeys(selected, existing, convertedKey)
    ensures ChangedKeys(selected, existing, convertedKey)[selected[i].key] ==
      if ChoseExisting(existing, selected[i]) then existing[selected[i].id] else convertedKey(selected[i])
    decreases |selected|
  {
    var n := |selected| - 1;
    if i < n {
      ChangedKeysTarget(selected[..n], existing, convertedKey, i);
    }
  }

  // ---------------------------------------------------------------------
  // Renaming property keys
  // ---------------------------------------------------------------------

  /** `properties[newKey] = properties.pop(oldKey)` when oldKey is present. */
  function RenameKey(properties: map<string, string>, oldKey: string, newKey: string): (r: map<string, string>)
    ensures oldKey in properties ==> newKey in r && r[newKey] == properties[oldKey]
    ensures r.Keys <= properties.Keys + {newKey}
  {
    if oldKey in properties then (properties - {oldKey})[newKey := properties[oldKey]] else properties
  }

  /** One pair of the rename table: a present key's value moves to the new
      key (overwriting what was there) and the old key goes; an absent key
      changes nothing; other keys keep their values; no key is added. */
  lemma RenameKeySpec(properties: map<string, string>, oldKey: string, newKey: string)
    ensures var r := RenameKey(properties, oldKey, newKey);
      && (oldKey in properties ==> newKey in r && r[newKey] == properties[oldKey])
      && (oldKey in properties && oldKey != newKey ==> oldKey !in r)
      && (oldKey !in properties ==> r == properties)
      && (forall k :: k in properties && k != oldKey && k != newKey ==> k in r && r[k] == properties[k])
      && r.Keys <= properties.Keys + {newKey}
      && |r| <= |properties|
  {
    if oldKey in properties {
      var popped := properties - {oldKey};
      assert popped.Keys == properties.Keys - {oldKey};
    }
  }

  /** All keys of `order` are keys of the rename table. */
  predicate InTable(order: seq<string>, table: map<string, string>)
  {
    forall i :: 0 <= i < |order| ==> order[i] in table
  }

  /** The properties after the table's pairs have been applied in `order`. */
  function RenameInOrder(properties: map<string, string>, table: map<string, string>, order: seq<string>): map<string, string>
    requires InTable(order, table)
    decreases |order|
  {
    if order == [] then properties
    else
      var n := |order| - 1;
      RenameKey(RenameInOrder(properties, table, order[..n]), order[n], table[order[n]])
  }

  /** `order` lists every key of the table exactly once, as iterating over a
      dictionary does. */
  ghost predicate IsEnumeration(order: seq<string>, table: map<string, string>)
  {
    && (forall i, j :: 0 <= i < j < |order| ==> order[i] != order[j])
    && (forall k :: k in order <==> k in table)
  }

  /** `changed_keys.iteritems()`: the table's keys, in an order the model
      leaves open as the dictionary does. */
  method EnumerateKeys(table: map<string, string>) returns (order: seq<string>)
    ensures IsEnumeration(order, table)
  {
    order := [];
    var rest := table.Keys;
    while rest != {}
      invariant rest <= table.Keys
      invariant forall i, j :: 0 <= i < j < |order| ==> order[i] != order[j]
      invariant forall k :: k in order <==> k in table && k !in rest
      decreases |rest|
    {
      var k :| k in rest;
      order := order + [k];
      rest := rest - {k};
    }
  }

  /** The inner loop of DataImportAssignFieldsPage.post over one feature:
      applies the table's pairs in `order`, in place. */
  method RenameProperties(properties: map<string, string>, table: map<string, string>, order: seq<string>)
    returns (renamed: map<string, string>)
    requires InTable(order, table)
    ensures renamed == RenameInOrder(properties, table, order)
  {
    renamed := properties;
    var i := 0;
    while i < |order|
      invariant 0 <= i <= |order|
      invariant renamed == RenameInOrder(properties, table, order[..i])
    {
      assert order[..i + 1][..i] == order[..i];
      var oldKey := order[i];
      if oldKey in renamed {
        var value := renamed[oldKey];
        renamed := renamed - {oldKey};
        renamed := renamed[table[oldKey] := value];
      }
      i := i + 1;
    }
    assert order[..i] == order;
  }

  /** Whatever the order: renaming never adds keys, keys it adds are table
      targets, and a key the table does not mention keeps its value. */
  lemma {:induction false} RenameInOrderFrame(properties: map<string, string>, table: map<string, string>,
                                              order: seq<string>)
    requires InTable(order, table)
    ensures |RenameInOrder(properties, table, order)| <= |properties|
    ensures RenameInOrder(properties, table, order).Keys <= properties.Keys + table.Values
    ensures forall k :: k in properties && k !in table && k !in table.Values ==>
      k in RenameInOrder(properties, table, order) && RenameInOrder(properties, table, order)[k] == properties[k]
    decreases |order|
  {
    if order != [] {
      var n := |order| - 1;
      assert InTable(order[..n], table);
      RenameInOrderFrame(properties, table, order[..n]);
      RenameKeySpec(RenameInOrder(properties, table, order[..n]), order[n], table[order[n]]);
      assert table[order[n]] in table.Values;
    }
  }

  /** The table renames simultaneously when no target is itself renamed
      and no two keys share a target. */
  predicate Unchained(table: map<string, string>)
  {
    && (forall k :: k in table ==> table[k] !in table)
    && (forall a, b :: a in table && b in table && a != b ==> table[a] != table[b])
  }

  /** For a table without chains the result is fixed whatever the order the
      pairs are applied in: every key of the table is gone; a present key's
      value ends up under its target; a target whose source is absent keeps
      what it had; every other key keeps its value, and no other key appears. */
  lemma {:induction false} RenameUnchained(properties: map<string, string>, table: map<string, string>,
                                           order: seq<string>)
    requires IsEnumeration(order, table) && Unchained(table)
    ensures forall o :: o in table ==> o !in RenameInOrder(properties, table, order)
    ensures forall o :: o in table && o in properties ==>
      && table[o] in RenameInOrder(properties, table, order)
      && RenameInOrder(properties, table, order)[table[o]] == properties[o]
    ensures forall o :: o in table && o !in properties ==>
      && (table[o] in RenameInOrder(properties, table, order) <==> table[o] in properties)
      && (table[o] in properties ==> RenameInOrder(properties, table, order)[table[o]] == properties[table[o]])
    ensures forall k :: k in properties && k !in table && k !in table.Values ==>
      k in RenameInOrder(properties, table, order) && RenameInOrder(properties, table, order)[k] == properties[k]
    ensures RenameInOrder(properties, table, order).Keys <= properties.Keys + table.Values
  {
    RenamePrefix(properties, table, order, |order|);
    RenamePrefixTargets(properties, table, order, |order|);
    assert order[..|order|] == order;
    RenameInOrderFrame(properties, table, order);
  }

  /** Without chains, any two iteration orders of the table give the same
      properties: the rename is then a simultaneous one. */
  lemma RenameOrderIndependent(properties: map<string, string>, table: map<string, string>,
                               order1: seq<string>, order2: seq<string>)
    requires IsEnumeration(order1, table) && IsEnumeration(order2, table) && Unchained(table)
    ensures RenameInOrder(properties, table, order1) == RenameInOrder(properties, table, order2)
  {
    var r1 := RenameInOrder(properties, table, order1);
    var r2 := RenameInOrder(properties, table, order2);
    RenameUnchained(properties, table, order1);
    RenameUnchained(properties, table, order2);
    forall k ensures (k in r1 <==> k in r2) && (k in r1 ==> r1[k] == r2[k]) {
      if k !in table && k in table.Values {
        var o :| o in table && table[o] == k;
      }
    }
  }

  /** The induction behind RenameUnchained, over the first `n` pairs: the
      keys applied so far are moved, the others are untouched. */
  lemma {:induction false} RenamePrefix(properties: map<string, string>, table: map<string, string>,
                                        order: seq<string>, n: nat)
    requires IsEnumeration(order, table) && Unchained(table) && n <= |order|
    ensures InTable(order[..n], table)
    ensures forall o :: o in order[..n] && o in properties ==>
      && table[o] in RenameInOrder(properties, table, order[..n])
      && RenameInOrder(properties, table, order[..n])[table[o]] == properties[o]
      && o !in RenameInOrder(properties, table, order[..n])
    ensures forall o :: o in table && o !in order[..n] ==>
      (o in RenameInOrder(properties, table, order[..n]) <==> o in properties)
      && (o in properties ==> RenameInOrder(properties, table, order[..n])[o] == properties[o])
    decreases n
  {
    if n > 0 {
      var m := n - 1;
      RenamePrefix(properties, table, order, m);
      var prefix := order[..n];
      assert prefix[..m] == order[..m];
      var before := RenameInOrder(properties, table, order[..m]);
      var after := RenameInOrder(properties, table, prefix);
      var k := order[m];
      assert after == RenameKey(before, k, table[k]);
      RenameKeySpec(before, k, table[k]);
      assert k !in order[..m];
      forall o | o in prefix && o in properties
        ensures table[o] in after && after[table[o]] == properties[o] && o !in after
      {
        if o != k {
          assert o in order[..m];
          assert table[o] != table[k] && table[o] != k && o != table[k];
        }
      }
      forall o | o in table && o !in prefix
        ensures (o in after <==> o in properties) && (o in properties ==> after[o] == properties[o])
      {
        assert o !in order[..m] && o != k && o != table[k];
      }
    }
  }

  /** The second half of the induction: after the first `n` pairs every key
      applied is gone, and the target of a key that is not yet applied, or
      is absent, still holds what it held at the start. */
  lemma {:induction false} RenamePrefixTargets(properties: map<string, string>, table: map<string, string>,
                                               order: seq<string>, n: nat)
    requires IsEnumeration(order, table) && Unchained(table) && n <= |order|
    ensures InTable(order[..n], table)
    ensures forall o :: o in table && o in order[..n] ==> o !in RenameInOrder(properties, table, order[..n])
    ensures forall o :: o in table && (o !in order[..n] || o !in properties) ==>
      && (table[o] in RenameInOrder(properties, table, order[..n]) <==> table[o] in properties)
      && (table[o] in properties ==> RenameInOrder(properties, table, order[..n])[table[o]] == properties[table[o]])
    decreases n
  {
    RenamePrefix(properties, table, order, n);
    if n > 0 {
      var m := n - 1;
      RenamePrefix(properties, table, order, m);
      RenamePrefixTargets(properties, table, order, m);
      var prefix := order[..n];
      assert prefix[..m] == order[..m];
      var before := RenameInOrder(properties, table, order[..m]);
      var after := RenameInOrder(properties, table, prefix);
      var k := order[m];
      assert after == RenameKey(before, k, table[k]);
      RenameKeySpec(before, k, table[k]);
      assert k !in order[..m];
      assert table[k] !in table;
      forall o | o in table && o in prefix
        ensures o !in after
      {
        if o != k {
          assert o in order[..m];
        }
      }
      forall o | o in table && (o !in prefix || o !in properties)
        ensures && (table[o] in after <==> table[o] in properties)
                && (table[o] in properties ==> after[table[o]] == properties[table[o]])
      {
        if o != k {
          assert table[o] != table[k] && table[o] != k;
        } else {
          assert k !in before;
        }
      }
    }
  }

  /** Where the table chains, the outcome depends on the iteration order:
      with `a` renamed to `b` and `b` to `c`, one order loses a value. */
  lemma RenameOrderMatters()
    ensures
      var table := map["a" := "b", "b" := "c"];
      var properties := map["a" := "1", "b" := "2"];
      && RenameInOrder(properties, table, ["a", "b"]) == map["c" := "1"]
      && RenameInOrder(properties, table, ["b", "a"]) == map["b" := "1", "c" := "2"]
  {
    var table := map["a" := "b", "b" := "c"];
    var properties := map["a" := "1", "b" := "2"];
    assert ["a", "b"][..1] == ["a"] && ["a"][..0] == [];
    assert ["b", "a"][..1] == ["b"] && ["b"][..0] == [];
    assert RenameInOrder(properties, table, ["a"]) == map["b" := "1"];
    assert RenameInOrder(properties, table, ["b"]) == map["a" := "1", "c" := "2"];
  }

  // ---------------------------------------------------------------------
  // The views that change the database
  // ---------------------------------------------------------------------

  /** The features after renaming the properties of every feature of `importId`. */
  function RenameFeatures(features: seq<DataFeature>, importId: int, table: map<string, string>,
                          order: seq<string>): (r: seq<DataFeature>)
    requires InTable(order, table)
  {
    seq(|features|, i requires 0 <= i < |features| =>
      if features[i].dataimport == importId
      then features[i].(properties := RenameInOrder(features[i].properties, table, order))
      else features[i])
  }

  function IsLocked(projects: map<int, Project>, projectId: int): bool
  {
    projectId in projects && projects[projectId].islocked
  }

  /** DataImportCreateCategoryPage.form_valid: attaches the category just
      created (`newCategory`, as the host platform created it) and stores
      the selected fields' keys. */
  method CreateCategory(db: Database, projectId: int, importId: int, newCategory: int, ids: seq<int>)
    returns (response: Response)
    modifies db`imports
    ensures db.projects == old(db.projects) && db.datafields == old(db.datafields)
    ensures var found := ContextImport(old(db.projects), old(db.imports), projectId, importId);
      && (found.None? ==> response == Render(NotFound) && db.imports == old(db.imports))
      && (found.Some? && CreateCategoryRefusal(IsLocked(db.projects, projectId), found.value).Some? ==>
            response == Render(CreateCategoryRefusal(IsLocked(db.projects, projectId), found.value).value)
            && db.imports == old(db.imports))
      && (found.Some? && CreateCategoryRefusal(IsLocked(db.projects, projectId), found.value).None? ==>
            response == Redirect(SingleDataImportPage, None)
            && db.imports == old(db.imports)[importId :=
                 found.value.(category := Some(newCategory),
                              keys := FieldKeys(SelectedFields(db.datafields, importId, ids)))])
  {
    var found := ContextImport(db.projects, db.imports, projectId, importId);
    if found.None? {
      return Render(NotFound);
    }
    var dataimport := found.value;
    var refusal := CreateCategoryRefusal(IsLocked(db.projects, projectId), dataimport);
    if refusal.Some? {
      return Render(refusal.value);
    }
    dataimport := dataimport.(category := Some(newCategory));
    db.imports := db.imports[importId := dataimport];

    var keys := [];
    if |ids| > 0 {
      var selected := SelectedFields(db.datafields, importId, ids);
      var i := 0;
      while i < |selected|
        invariant 0 <= i <= |selected|
        invariant keys == FieldKeys(selected[..i])
      {
        assert FieldKeys(selected[..i + 1]) == FieldKeys(selected[..i]) + [selected[i].key];
        keys := keys + [selected[i].key];
        i := i + 1;
      }
      assert selected[..i] == selected;
    } else {
      assert SelectedFields(db.datafields, importId, ids) == [];
    }
    assert keys == FieldKeys(SelectedFields(db.datafields, importId, ids));
    dataimport := dataimport.(keys := keys);
    db.imports := db.imports[importId := dataimport];
    assert dataimport == found.value.(category := Some(newCategory), keys := keys);
    return Redirect(SingleDataImportPage, None);
  }

  /** DataImportAssignFieldsPage.post: stores the selected fields' keys and
      renames the properties of every feature of the import by the rename
      table, applied in the order `order` in which the table is iterated. */
  method AssignFields(db: Database, projectId: int, importId: int, ids: seq<int>,
                      existing: map<int, string>, convertedKey: DataField -> string)
    returns (response: Response, ghost order: seq<string>)
    modifies db`imports, db`datafeatures
    ensures db.projects == old(db.projects) && db.datafields == old(db.datafields)
    ensures var found := ContextImport(old(db.projects), old(db.imports), projectId, importId);
      && (found.None? ==>
            response == Render(NotFound) && db.imports == old(db.imports) && db.datafeatures == old(db.datafeatures))
      && (found.Some? && AssignFieldsRefusal(IsLocked(db.projects, projectId), found.value).Some? ==>
            response == Render(AssignFieldsRefusal(IsLocked(db.projects, projectId), found.value).value)
            && db.imports == old(db.imports) && db.datafeatures == old(db.datafeatures))
      && (found.Some? && AssignFieldsRefusal(IsLocked(db.projects, projectId), found.value).None? ==>
            var selected := SelectedFields(db.datafields, importId, ids);
            && response == Redirect(SingleDataImportPage, None)
            && db.imports == old(db.imports)[importId := found.value.(keys := FieldKeys(selected))]
            && (|ids| == 0 ==> db.datafeatures == old(db.datafeatures))
            && (|ids| > 0 ==>
                  && IsEnumeration(order, ChangedKeys(selected, existing, convertedKey))
                  && db.datafeatures == RenameFeatures(old(db.datafeatures), importId,
                                                       ChangedKeys(selected, existing, convertedKey), order)))
  {
    order := [];
    var found := ContextImport(db.projects, db.imports, projectId, importId);
    if found.None? {
      return Render(NotFound), order;
    }
    var dataimport := found.value;
    var refusal := AssignFieldsRefusal(IsLocked(db.projects, projectId), dataimport);
    if refusal.Some? {
      return Render(refusal.value), order;
    }
    var keys := [];
    if |ids| > 0 {
      var selected := SelectedFields(db.datafields, importId, ids);
      var changed;
      keys, changed := CollectKeys(selected, existing, convertedKey);
      assert keys == FieldKeys(selected);
      var iteration := EnumerateKeys(changed);
      order := iteration;
      ghost var expected := RenameFeatures(old(db.datafeatures), importId, changed, iteration);
      var i := 0;
      while i < |db.datafeatures|
        invariant 0 <= i <= |db.datafeatures| == |old(db.datafeatures)|
        invariant db.imports == old(db.imports)
        invariant forall j :: 0 <= j < i ==> db.datafeatures[j] == expected[j]
        invariant forall j :: i <= j < |db.datafeatures| ==> db.datafeatures[j] == old(db.datafeatures)[j]
      {
        var datafeature := db.datafeatures[i];
        if datafeature.dataimport == importId {
          var properties := RenameProperties(datafeature.properties, changed, iteration);
          db.datafeatures := db.datafeatures[i := datafeature.(properties := properties)];
        }
        i := i + 1;
      }
      assert db.datafeatures == expected;
    } else {
      assert SelectedFields(db.datafields, importId, ids) == [];
    }
    assert keys == FieldKeys(SelectedFields(db.datafields, importId, ids));
    db.imports := db.imports[importId := dataimport.(keys := keys)];
    return Redirect(SingleDataImportPage, None), order;
  }

  /** RemoveDataImportPage.get: a locked project keeps its import and the
      page redirects back to it; otherwise the import is deleted. */
  method RemoveDataImport(db: Database, projectId: int, importId: int) returns (response: Response)
    modifies db`imports
    ensures var found := ContextImport(old(db.projects), old(db.imports), projectId, importId);
      && (found.None? ==> response == Render(NotFound) && db.imports == old(db.imports))
      && (found.Some? && IsLocked(db.projects, projectId) ==>
            response == Redirect(SingleDataImportPage, Some(ProjectLocked)) && db.imports == old(db.imports))
      && (found.Some? && !IsLocked(db.projects, projectId) ==>
            response == Redirect(AllDataImportsPage, None)
            && db.imports == old(db.imports)[importId := SoftDeleted(old(db.imports)[importId])]
            && db.Get(importId) == None)
  {
    var found := ContextImport(db.projects, db.imports, projectId, importId);
    if found.None? {
      return Render(NotFound);
    }
    if IsLocked(db.projects, projectId) {
      return Redirect(SingleDataImportPage, Some(ProjectLocked));
    }
    db.Delete(importId);
    return Redirect(AllDataImportsPage, None);
  }
}
