# geokey-dataimports in Dafny

A Dafny model of the data-import extension for the GeoKey platform. Users
upload a CSV, GeoJSON or KML file to a project. The extension stores the
upload as a *data import*. Its fields and features can then be attached to an
existing category, or turned into a new one. The modelled code covers:

- **The CSV reader** `import_from_csv` (module `ModelHelpers`,
  `model_helpers.dfy`). It takes the already tokenized rows of a CSV file. It
  appends one candidate field per header cell to a caller-owned list, and one
  raw feature per data row to a second caller-owned list. Each feature gets a
  1-based line number and a properties dictionary that leaves out blank cells.
  The two lists are objects (`MutableList`) that the method appends to. So the
  model keeps the Python behaviour on an error: entries appended before an
  `IndexError` stay in the caller's lists.
- **The soft-delete life cycle** of a data import (module `Models`,
  `models.dfy`). A `Database` object holds the import, data-field and
  data-feature tables. `delete` sets an import's status to `deleted`. The two
  `post_save` handlers do the same for every import of a project or category
  that was just saved with status `'deleted'`.
- **The decisions of the admin pages** (module `Views`, `views.dfy`):
  - the index page's filter table;
  - the content type → `FORMAT` rule and the redirect after adding an import;
  - the guard chains of the create-category, assign-fields and remove pages;
  - how assigning fields builds the `keys` list and the `changed_keys` rename
    table, and renames property keys in every feature of the import.

The closed enumerations `STATUS`, `FORMAT` and the field-type tags are in
module `Base` (`base.dfy`).

Foreign code is passed in as parameters:

- Django's `strip_tags` is a function parameter `stripTags`.
- `DataField.convert_to_field` is a parameter `convertedKey`: the key of the
  field that the conversion creates for a data field.
- The category that `Category.objects.create` creates is an id parameter.
- The request's posted values are plain parameters (`ids`, `existing`,
  `categoryCreate`, …).

Where the code and the tests disagree, the model follows the code:

- `import_from_csv` names its third parameter `file`, but the tests pass
  `file_obj=`. The model takes the rows as its input.
- The test for attaching an existing category expects a redirect to an
  "attach category" page. `get_success_url` redirects to the assign-fields
  page, and the model does too (`Views.AddRedirect`). The
  `DataImportAttachCategoryPage` that the tests and the URL table import is not
  defined in views.py.
- `DataImport` in models.py has no `keys` column, but the views read and
  write `dataimport.keys`. The model gives the import a `keys` sequence. The
  empty sequence also stands for a value never set, because the views only
  test it for truth.

The manager module (managers.py) is not part of this model. The model makes
two assumptions about it:

- The default manager does not return deleted imports (`Models.Retrieve`).
  The tests rely on this: they expect a lookup of a deleted import to fail.
- A queryset `delete()` soft-deletes, like `DataImport.delete`. The tests do
  not tell this apart from a hard delete, since both make the lookup fail.

The rename loop iterates over a Python 2 dictionary, so its order is not
specified. `Views.EnumerateKeys` picks some order. Suppose no rename target
is itself renamed and no two keys share a target. Then `Views.RenameUnchained`
fixes every key of the result, and `Views.RenameOrderIndependent` proves that
any two iteration orders give the same properties. `Views.RenameOrderMatters`
shows an input with a chain where the order does change the result.

## Model

| member | source | states |
|---|---|---|
| `ModelHelpers.ImportFromCsv` | geokey_dataimports/helpers/model_helpers.py:6-24 | With no rows at all, the call fails, as iterating over `None` does, and both lists are unchanged. Otherwise `fields` gets exactly the seeded header fields appended after its old entries. `features` gets exactly the features `ReadRows` produces appended after its old entries. The error is the one `ReadRows` reports. |
| `ModelHelpers.AppendHeaderFields` | geokey_dataimports/helpers/model_helpers.py:8-13 | Appends one seeded field per header cell, in order, after the existing entries. |
| `ModelHelpers.SeededFieldsSpec` | geokey_dataimports/helpers/model_helpers.py:8-13 | There are as many new fields as header cells. The i-th is named `strip_tags(header[i])` and has good types {TextField, LookupField} and no bad types, so good ∩ bad = ∅. |
| `ModelHelpers.RowToProperties` | geokey_dataimports/helpers/model_helpers.py:17-22 | The inner cell loop returns the row's properties dictionary exactly when every non-blank cell has a field at its index. Otherwise it fails, where Python raises IndexError. |
| `ModelHelpers.RowPropertiesKeys` | geokey_dataimports/helpers/model_helpers.py:19-22 | The property keys are exactly the names of the fields at the row's non-blank positions. |
| `ModelHelpers.RowPropertiesNonBlank` | geokey_dataimports/helpers/model_helpers.py:20 | No stored value is blank: blank cells never appear in the properties. |
| `ModelHelpers.RowPropertiesLastWins` | geokey_dataimports/helpers/model_helpers.py:19-22 | Round trip: a non-blank cell is stored verbatim under its field's name, unless a later non-blank cell under the same name overwrote it. |
| `ModelHelpers.RowPropertiesLaterOverwrites` | geokey_dataimports/helpers/model_helpers.py:21-22 | With duplicate field names, the value kept is the one in the last non-blank column of that name. An earlier column of that name with a different value is not what is kept. |
| `ModelHelpers.ReadRowsSpec` | geokey_dataimports/helpers/model_helpers.py:14-24 | Rows are read in file order. The k-th feature holds the k-th data row's properties and has line number k+1 after the rows already read. Reading fails exactly when some row has a non-blank cell without a field, and it stops at the first such row. Without an error there is one feature per row. |
| `ModelHelpers.ReadFeaturesWellFormed` | geokey_dataimports/helpers/model_helpers.py:14-24 | The k-th feature appended after the header has line k+1. Its values are non-blank, and each is stored under the name of a field at a non-blank position of its row. |
| `ModelHelpers.ImportsBasicChars` | geokey_dataimports/tests/test_model_helpers.py:14-21 | The ASCII test case: header `abc,cde,efg` and row `123,456,789` give one feature with exactly those three values under those names. |
| `ModelHelpers.ImportsNonAsciiChars` | geokey_dataimports/tests/test_model_helpers.py:23-30 | The non-ASCII test case: header `à,£` and row `¡,Ç` give one feature with exactly those values. |
| `Models.Database.Get` | geokey_dataimports/models.py:50 | A lookup through the default manager finds an import only if it exists and is not deleted. |
| `Models.Database.Delete` | geokey_dataimports/models.py:52-55 | Sets the import's status to `deleted`. No other modelled column, no other row and no other table changes. Afterwards the import cannot be retrieved. |
| `Models.SoftDeleteSpec` | geokey_dataimports/models.py:52-55 | The deleted import differs from the original only in its status. Deleting twice equals deleting once. |
| `Models.Database.PostSaveProject` | geokey_dataimports/models.py:84-88 | A project saved with status `'deleted'` soft-deletes exactly the imports of that project. Any other status changes nothing. |
| `Models.Database.PostSaveCategory` | geokey_dataimports/models.py:91-95 | A category saved with status `'deleted'` soft-deletes exactly the imports attached to it. Any other status changes nothing. |
| `Models.DeleteInSpec` | geokey_dataimports/models.py:84-95 | A cascade keeps every row. Rows in its scope get status `deleted` and keep their other columns. Rows of other projects or categories are unchanged. |
| `Models.DeleteInHidesScope` | geokey_dataimports/models.py:84-95 | After a cascade, no import in its scope can be retrieved. Every other import is retrieved exactly as before. |
| `Models.DeleteInIdempotent` | geokey_dataimports/models.py:84-95 | Running a cascade twice gives the same table as running it once. |
| `Models.CascadesHideImport` | geokey_dataimports/tests/test_models.py:30-94 | As the tests check: after deleting an import, or its deleted project, or its deleted category, the import cannot be retrieved. |
| `Views.KeepProjects` | geokey_dataimports/views.py:53-59 | Keeps exactly the projects with imports, or exactly those without, and never adds one. |
| `Views.IndexContext` | geokey_dataimports/views.py:49-60 | The filter table always holds both entries, whatever the query parameter. `without-data-imports-only` keeps exactly the administered projects without imports. `with-data-imports-only` keeps exactly those with imports. Any other value keeps all of them. |
| `Views.DataFormatFor` | geokey_dataimports/views.py:129-144 | Gives the format whose content type is the upload's content type (JSON → GeoJSON, KML → KML, text/csv → CSV). Gives no format exactly when no format has that content type. |
| `Views.AddDataImport` | geokey_dataimports/views.py:116-159 | An import is added exactly when the project exists, is not locked and the content type has a format. A locked project always refuses. The import gets the posted category exactly when an existing category was chosen and found in the project. A category that is not found does not stop the import. |
| `Views.SuccessPage` | geokey_dataimports/views.py:196-211 | The page after adding is assign-fields exactly when the import has a category, and create-category exactly when it has none. |
| `Views.AddRedirect` | geokey_dataimports/views.py:196-211 | After a successful add, the redirect goes to assign-fields exactly when an existing category was attached, and to create-category otherwise. |
| `Views.CreateCategoryRefusal` | geokey_dataimports/views.py:437-453 | Creating a category is allowed exactly when the project is unlocked, the import has no category and no keys. The first failing guard wins: locked, then category present, then keys set. |
| `Views.AssignFieldsRefusal` | geokey_dataimports/views.py:540-554 | Assigning fields is allowed exactly when the project is unlocked, the import has a category and no keys. The first failing guard wins: locked, then category missing, then keys set. |
| `Views.CreateThenAssign` | geokey_dataimports/views.py:442-550 | After a category was created, a second creation is refused. Assigning fields is then allowed exactly when the creation stored no keys, so an empty selection does not block it. |
| `Views.ContextImport` | geokey_dataimports/views.py:242-253 | A page finds an import exactly when the page's project exists and the import is retrievable and belongs to that project. |
| `Views.SelectedFields` | geokey_dataimports/views.py:561 | The selected data fields are exactly the import's fields whose id was posted. No ids selects none. |
| `Views.CollectKeys` | geokey_dataimports/views.py:556-576 | `keys` lists the selected fields' original keys, in order, whether or not an existing field was chosen. The rename table is the one `ChangedKeys` describes. |
| `Views.ChangedKeysKeys` | geokey_dataimports/views.py:562-574 | The rename table has an entry exactly for the keys of selected fields that were mapped onto an existing field or converted to a field with another key. |
| `Views.ChangedKeysTarget` | geokey_dataimports/views.py:562-574 | A key is mapped to the chosen existing field's key, or otherwise to the converted field's key. Of two selected fields with one key, the later one's entry is kept. |
| `Views.RenameKey` | geokey_dataimports/views.py:582-583 | Popping a present key and storing its value under the new key leaves that value under the new key. No key other than the new one appears. |
| `Views.RenameKeySpec` | geokey_dataimports/views.py:582-583 | One pair: a present key's value moves to the new key, overwriting it, and the old key is removed. An absent key is a no-op. Other keys keep their values. The number of keys does not grow. |
| `Views.EnumerateKeys` | geokey_dataimports/views.py:581 | Iterating the rename table visits every key exactly once, in an unspecified order. |
| `Views.RenameProperties` | geokey_dataimports/views.py:579-585 | The per-feature loop leaves the properties that applying the table's pairs in iteration order gives. |
| `Views.RenameInOrderFrame` | geokey_dataimports/views.py:578-586 | For any order: the number of keys never increases, new keys are rename targets, and keys the table does not mention keep their values. |
| `Views.RenameUnchained` | geokey_dataimports/views.py:578-586 | Assume no target is itself renamed and no two keys share a target. Then, in any iteration order, every key of the table is gone and a present key's value ends up under its target. A target whose source is absent keeps what it had. Keys the table does not mention keep their values, and no other key appears. |
| `Views.RenameOrderIndependent` | geokey_dataimports/views.py:578-586 | Under the same assumption, any two iterations of the table give exactly the same renamed properties. |
| `Views.RenameOrderMatters` | geokey_dataimports/views.py:581-583 | With `a → b` and `b → c`, the two iteration orders give different properties, and one of them loses a value. |
| `Views.CreateCategory` | geokey_dataimports/views.py:432-486 | A missing import or a failing guard renders the refusal and changes nothing. Otherwise the new category is attached, the selected fields' keys are stored as `keys`, and the page redirects to the import. |
| `Views.AssignFields` | geokey_dataimports/views.py:535-599 | A missing import or a failing guard renders the refusal and leaves imports and features unchanged. Otherwise `keys` becomes the selected fields' keys (`[]` for an empty selection). For a non-empty selection, every feature of the import is renamed by the rename table in its iteration order, and features of other imports are unchanged. |
| `Views.RemoveDataImport` | geokey_dataimports/views.py:642-667 | A missing import renders not-found. In a locked project the import stays and the page redirects back to it. Otherwise the import is soft-deleted, can no longer be retrieved, and the page redirects to all imports. |

## Left out

- Request handling, templates, flash messages, login and the project
  permission lookup (`ProjectContext`): plumbing around the decisions. The
  administered projects and the page's project are inputs.
- Persistence: the ORM, `save`, querysets, `ArrayField`, `JsonBField` and the
  geometry column. Tables are maps and sequences, and a queryset's order is
  the order of its sequence.
- `csv.reader` tokenizing: the model takes the rows it yields.
- Byte and text strings: cells and field names are Dafny strings of Unicode
  characters. Under Python 2, `csv.reader` yields byte strings and
  `strip_tags` returns text, so a non-ASCII header name and a non-ASCII cell
  may differ in encoding. The model does not tell them apart.
- Timestamps: `DataImport` is a `StatusModel` and a `TimeStampedModel`, so
  every `save()` also updates `status_changed` and `modified`. The model has no
  timestamp columns, so `Models.Database.Delete` and the cascades do not state
  these updates.
- A posted `category` that is not an integer: `project.categories.get(pk=…)`
  then raises an uncaught `ValueError`. The `Option<int>` parameter of
  `Views.AddDataImport` cannot express such a value.
- `strip_tags` and `convert_to_field`: foreign code, passed in as parameters.
  The field that `convert_to_field` creates in the category is not modelled,
  only its key. That key may depend on the category's existing fields; the
  model folds that into the parameter.
- `FileParseError` while saving an upload: the parsing that raises it
  (managers.py, exceptions.py, helpers/type_helpers.py) is not part of this
  model. So are schema inference, geometry detection and key deduplication.
- `SingleDataImportPage.form_valid` (updating an import and picking a
  category) and the read-only pages: not part of the modelled core.
- The template tags and the URL table: configuration and formatting only.
