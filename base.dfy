/** The closed enumerations of the extension (geokey_dataimports/base.py)
    and the optional-value wrapper the rest of the model uses. */
module Base {

  datatype Option<+T> = None | Some(value: T)

  /** STATUS = Choices('active', 'deleted'): the life cycle of a data import. */
  datatype Status = Active | Deleted

  /** FORMAT = Choices('GeoJSON', 'KML', 'CSV'): the format of an uploaded file. */
  datatype Format = GeoJSON | KML | CSV

  /** The field-type tags a candidate field keeps in its good and bad type sets.
      Only TextField and LookupField are ever placed there by the code modelled
      here; the other tags belong to the type inference that is not part of
      this model. */
  datatype FieldType =
    | TextField
    | LookupField
    | NumericField
    | DateField
    | DateTimeField
    | TimeField
    | GeometryField
}
