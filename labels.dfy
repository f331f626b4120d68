/**
 * The class-label table shared in spirit by both result screens and the server:
 * a class id (the key) names an object and describes it. The screens resolve a
 * predicted display name back to its description by scanning the table in key
 * order and stopping at the first entry whose name is exactly that name.
 */
module Labels {
  import opened Wrappers

  datatype ClassLabel = ClassLabel(nombre: string, descripcion: string)

  /** The description the screens show when no entry matches. */
  const NoDescription: string := "Descripción no disponible."

  /** What a matching entry contributes: its description, or the default when
      that description is empty (JavaScript's `||` on a falsy string). */
  function OrNoDescription(descripcion: string): (r: string)
    ensures r != ""
    ensures descripcion != "" ==> r == descripcion
    ensures descripcion == "" ==> r == NoDescription
  {
    if descripcion == "" then NoDescription else descripcion
  }

  /** The first key at or after `from` whose entry is named `name`. */
  function FirstMatchFrom(table: seq<ClassLabel>, name: string, from: nat): (r: Option<nat>)
    requires from <= |table|
    ensures r.Some? ==> from <= r.value < |table| && table[r.value].nombre == name
    ensures r.Some? ==> forall j :: from <= j < r.value ==> table[j].nombre != name
    ensures r.None? ==> forall j :: from <= j < |table| ==> table[j].nombre != name
    decreases |table| - from
  {
    if from == |table| then None
    else if table[from].nombre == name then Some(from)
    else FirstMatchFrom(table, name, from + 1)
  }

  /** The first key, in the order 0, 1, 2, ..., whose entry is named `name`. */
  function FirstMatch(table: seq<ClassLabel>, name: string): (r: Option<nat>)
    ensures r.Some? ==> r.value < |table| && table[r.value].nombre == name
    ensures r.Some? ==> forall j :: 0 <= j < r.value ==> table[j].nombre != name
    ensures r.None? <==> forall j :: 0 <= j < |table| ==> table[j].nombre != name
  {
    FirstMatchFrom(table, name, 0)
  }

  /** The description the lookup settles on for `name`. */
  function Describe(table: seq<ClassLabel>, name: string): string
  {
    match FirstMatch(table, name)
    case None => NoDescription
    case Some(k) => OrNoDescription(table[k].descripcion)
  }

  /** No two entries share a display name. */
  predicate NamesDistinct(table: seq<ClassLabel>)
  {
    forall i, j :: 0 <= i < j < |table| ==> table[i].nombre != table[j].nombre
  }

  /**
   * The screens' lookup loop: walk the keys in order, keep the default, and on
   * the first exact name match take that entry's description and stop.
   */
  method LookupDescription(table: seq<ClassLabel>, name: string) returns (description: string)
    ensures description == Describe(table, name)
    ensures description != ""
  {
    description := NoDescription;
    var key := 0;
    while key < |table|
      invariant 0 <= key <= |table|
      invariant forall j :: 0 <= j < key ==> table[j].nombre != name
      invariant description == NoDescription
    {
      if table[key].nombre == name {
        description := OrNoDescription(table[key].descripcion);
        break;
      }
      key := key + 1;
    }
  }

  /** Lookup is first-match: the entry found is the earliest one carrying the name. */
  lemma DescribeFirstMatch(table: seq<ClassLabel>, name: string, k: nat)
    requires k < |table| && table[k].nombre == name
    requires forall j :: 0 <= j < k ==> table[j].nombre != name
    ensures Describe(table, name) == OrNoDescription(table[k].descripcion)
  {
  }

  /** A name no entry carries resolves to the default description. */
  lemma DescribeMiss(table: seq<ClassLabel>, name: string)
    requires forall j :: 0 <= j < |table| ==> table[j].nombre != name
    ensures Describe(table, name) == NoDescription
  {
  }

  /** With distinct names, looking up an entry's own name finds that entry. */
  lemma DescribeOwnName(table: seq<ClassLabel>, k: nat)
    requires NamesDistinct(table)
    requires k < |table|
    ensures Describe(table, table[k].nombre) == OrNoDescription(table[k].descripcion)
  {
    DescribeFirstMatch(table, table[k].nombre, k);
  }
}
