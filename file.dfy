/** The file-field query the decoder uses to choose its parser. */
module FormFile {
  import opened Form

  /** Some declared field is a file field. */
  predicate AnyFile(fields: seq<Field>) {
    exists i :: 0 <= i < |fields| && fields[i].IsFile()
  }

  /** Scans the fields in order and stops at the first file field. */
  method HasFile(fields: seq<Field>) returns (found: bool)
    ensures found <==> AnyFile(fields)
  {
    for i := 0 to |fields|
      invariant forall j :: 0 <= j < i ==> !fields[j].IsFile()
    {
      if fields[i].IsFile() {
        return true;
      }
    }
    return false;
  }

  /** A list of fields has a file field exactly when one of its two halves does. */
  lemma AnyFileConcat(a: seq<Field>, b: seq<Field>)
    ensures AnyFile(a + b) <==> AnyFile(a) || AnyFile(b)
  {
    if AnyFile(a + b) {
      var i :| 0 <= i < |a + b| && (a + b)[i].IsFile();
      if i >= |a| {
        assert b[i - |a|] == (a + b)[i];
      }
    }
    if AnyFile(a) {
      var i :| 0 <= i < |a| && a[i].IsFile();
      assert (a + b)[i] == a[i];
    }
    if AnyFile(b) {
      var i :| 0 <= i < |b| && b[i].IsFile();
      assert (a + b)[|a| + i] == b[i];
    }
  }

  /** No fields, no file field. */
  lemma NoFieldsNoFile()
    ensures !AnyFile([])
  {
  }

  /** A name field and a document field typed "file": some field is a file. */
  lemma FieldsWithFileHaveFile()
    ensures AnyFile([FieldOf("name", []), FieldOf("document", [WithType("file")])])
  {
    var fields := [FieldOf("name", []), FieldOf("document", [WithType("file")])];
    assert [WithType("file")][..0] == [];
    assert fields[1].IsFile();
  }

  /** A default-typed field and one typed "email": no field is a file. */
  lemma FieldsWithoutFileHaveNoFile()
    ensures !AnyFile([FieldOf("name", []), FieldOf("email", [WithType("email")])])
  {
    var fields := [FieldOf("name", []), FieldOf("email", [WithType("email")])];
    assert [WithType("email")][..0] == [];
    assert !fields[0].IsFile() && !fields[1].IsFile();
  }
}
