/** The data-import table and its soft-delete life cycle
    (geokey_dataimports/models.py).

    The relational store is an in-memory `Database` object whose fields
    stand for its tables. A data import is never removed from the table:
    `delete` sets its status to `deleted`, and the two `post_save` signal
    handlers do the same for every import of a project or category that has
    just been saved with status 'deleted'. */
module Models {
  import opened Base

  /** A project of the host platform, as far as this extension looks at it. */
  datatype Project = Project(id: int, status: string, islocked: bool)

  /** A category of the host platform, as far as this extension looks at it. */
  datatype Category = Category(id: int, status: string)

  /** One row of the data-import table. `keys` is the list of datafield keys
      stored once fields have been assigned; the empty list also stands for
      a value that was never set, since the views only test it for truth. */
  datatype DataImport = DataImport(
    status: Status,
    project: int,
    category: Option<int>,
    dataformat: Format,
    keys: seq<string>)

  /** One row of the data-field table (a field found in an import's file). */
  datatype DataField = DataField(id: int, key: string, dataimport: int)

  /** One row of the data-feature table (its geometry is not modelled). */
  datatype DataFeature = DataFeature(dataimport: int, properties: map<string, string>)

  /** The set of imports a cascade applies to. */
  datatype Scope = OfProject(projectId: int) | OfCategory(categoryId: int)

  predicate InScope(imp: DataImport, scope: Scope)
  {
    match scope
    case OfProject(p) => imp.project == p
    case OfCategory(c) => imp.category == Some(c)
  }

  /** What `delete` makes of one import. */
  function SoftDeleted(imp: DataImport): (r: DataImport)
  {
    imp.(status := Deleted)
  }

  /** The import table after every import in `scope` has been soft-deleted. */
  function DeleteIn(imports: map<int, DataImport>, scope: Scope): (r: map<int, DataImport>)
  {
    map id | id in imports :: if InScope(imports[id], scope) then SoftDeleted(imports[id]) else imports[id]
  }

  /** The import a lookup through the default manager finds: only imports
      that are not deleted can be retrieved. */
  function Retrieve(imports: map<int, DataImport>, id: int): Option<DataImport>
  {
    if id in imports && imports[id].status == Active then Some(imports[id]) else None
  }

  class Database {
    var projects: map<int, Project>
    var imports: map<int, DataImport>
    var datafields: seq<DataField>
    var datafeatures: seq<DataFeature>

    constructor (projects: map<int, Project>, imports: map<int, DataImport>,
                 datafields: seq<DataField>, datafeatures: seq<DataFeature>)
      ensures this.projects == projects && this.imports == imports
      ensures this.datafields == datafields && this.datafeatures == datafeatures
    {
      this.projects := projects;
      this.imports := imports;
      this.datafields := datafields;
      this.datafeatures := datafeatures;
    }

    /** DataImport.objects.get(pk=id): the import, unless it is missing or deleted. */
    function Get(id: int): (r: Option<DataImport>)
      reads this
      ensures r.Some? ==> id in imports && r.value == imports[id] && r.value.status == Active
      ensures r.None? ==> id !in imports || imports[id].status == Deleted
    {
      Retrieve(imports, id)
    }

    /** DataImport.delete: sets the status to `deleted` and saves; no other
        column and no other row changes. */
    method Delete(id: int)
      requires id in imports
      modifies this`imports
      ensures imports == old(imports)[id := SoftDeleted(old(imports)[id])]
      ensures Get(id) == None
    {
      imports := imports[id := imports[id].(status := Deleted)];
    }

    /** post_save_project: once a project is saved with status 'deleted',
        every import of that project is deleted. */
    method PostSaveProject(instance: Project)
      modifies this`imports
      ensures instance.status == "deleted" ==> imports == DeleteIn(old(imports), OfProject(instance.id))
      ensures instance.status != "deleted" ==> imports == old(imports)
    {
      if instance.status == "deleted" {
        imports := DeleteIn(imports, OfProject(instance.id));
      }
    }

    /** post_save_category: once a category is saved with status 'deleted',
        every import attached to that category is deleted. */
    method PostSaveCategory(instance: Category)
      modifies this`imports
      ensures instance.status == "deleted" ==> imports == DeleteIn(old(imports), OfCategory(instance.id))
      ensures instance.status != "deleted" ==> imports == old(imports)
    {
      if instance.status == "deleted" {
        imports := DeleteIn(imports, OfCategory(instance.id));
      }
    }
  }

  // ---------------------------------------------------------------------
  // Properties of the soft delete
  // ---------------------------------------------------------------------

  /** Deleting changes the status and nothing else, and deleting twice is
      the same as deleting once. */
  lemma SoftDeleteSpec(imp: DataImport)
    ensures SoftDeleted(imp).status == Deleted
    ensures SoftDeleted(imp).(status := imp.status) == imp
    ensures SoftDeleted(SoftDeleted(imp)) == SoftDeleted(imp)
  {
  }

  /** A cascade keeps every row, deletes the rows in its scope without
      touching their other columns, and leaves every other row as it was. */
  lemma DeleteInSpec(imports: map<int, DataImport>, scope: Scope)
    ensures DeleteIn(imports, scope).Keys == imports.Keys
    ensures forall id :: id in imports && InScope(imports[id], scope) ==>
      DeleteIn(imports, scope)[id] == SoftDeleted(imports[id])
    ensures forall id :: id in imports && !InScope(imports[id], scope) ==>
      DeleteIn(imports, scope)[id] == imports[id]
  {
  }

  /** After a cascade no import in its scope can be retrieved, while every
      other import is retrieved exactly as before. */
  lemma DeleteInHidesScope(imports: map<int, DataImport>, scope: Scope, id: int)
    ensures id in imports && InScope(imports[id], scope) ==> Retrieve(DeleteIn(imports, scope), id) == None
    ensures !(id in imports && InScope(imports[id], scope)) ==>
      Retrieve(DeleteIn(imports, scope), id) == Retrieve(imports, id)
  {
  }

  /** A cascade is idempotent: running it twice gives the table it gives once. */
  lemma DeleteInIdempotent(imports: map<int, DataImport>, scope: Scope)
    ensures DeleteIn(DeleteIn(imports, scope), scope) == DeleteIn(imports, scope)
  {
    var once := DeleteIn(imports, scope);
    var twice := DeleteIn(once, scope);
    assert twice.Keys == once.Keys;
    forall id | id in once ensures twice[id] == once[id] {
      assert InScope(once[id], scope) == InScope(imports[id], scope);
    }
  }

  /** As the test suite checks after deleting an import, a project or a
      category: the import can no longer be retrieved. */
  lemma CascadesHideImport(imports: map<int, DataImport>, id: int, project: Project, category: Category)
    requires id in imports && imports[id].project == project.id && imports[id].category == Some(category.id)
    requires project.status == "deleted" && category.status == "deleted"
    ensures Retrieve(imports[id := SoftDeleted(imports[id])], id) == None
    ensures Retrieve(DeleteIn(imports, OfProject(project.id)), id) == None
    ensures Retrieve(DeleteIn(imports, OfCategory(category.id)), id) == None
  {
  }
}
