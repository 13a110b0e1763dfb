/** The image lookup of src/lib/placeholder-images.ts.  The image table is
    read from a data file that is not part of this model, so it is a
    parameter here. */
module PlaceholderImages {

  datatype ImagePlaceholder = ImagePlaceholder(id: string, description: string, imageUrl: string, imageHint: string)

  /** The image used when the table has no entry for an id. */
  const DefaultImage := ImagePlaceholder(
    "default",
    "Default placeholder image",
    "https://picsum.photos/seed/default/400/400",
    "placeholder")

  /** The position of the first entry with id `id`, or `|table|` when there
      is none. */
  function FirstWithId(table: seq<ImagePlaceholder>, id: string): (k: nat)
    ensures k <= |table|
    ensures k < |table| ==> table[k].id == id
    ensures forall j :: 0 <= j < k ==> table[j].id != id
    decreases |table|
  {
    if table == [] then 0
    else if table[0].id == id then 0
    else
      var k := FirstWithId(table[1..], id);
      assert forall j :: 1 <= j < k + 1 ==> table[j] == table[1..][j - 1];
      k + 1
  }

  /** `findImage(id)`: the first entry whose id is `id`, otherwise the
      default image.  The `find` result is an object whenever it is not
      undefined, and objects are truthy, so `||` only replaces a miss. */
  function FindImage(table: seq<ImagePlaceholder>, id: string): (img: ImagePlaceholder)
    ensures img.id == id || img == DefaultImage
    ensures img in table || img == DefaultImage
    ensures (forall e :: e in table ==> e.id != id) ==> img == DefaultImage
    ensures forall k :: 0 <= k < |table| && table[k].id == id && (forall j :: 0 <= j < k ==> table[j].id != id)
              ==> img == table[k]
  {
    var k := FirstWithId(table, id);
    if k < |table| then table[k] else DefaultImage
  }

  /** Every entry whose id is `id`, in table order. */
  function EntriesWithId(table: seq<ImagePlaceholder>, id: string): seq<ImagePlaceholder>
    decreases |table|
  {
    if table == [] then []
    else (if table[0].id == id then [table[0]] else []) + EntriesWithId(table[1..], id)
  }

  /** A second definition of the lookup: the head of the filtered table, or
      the default when the filter is empty. */
  lemma {:induction false} FindImageIsFirstOfFilter(table: seq<ImagePlaceholder>, id: string)
    ensures FindImage(table, id) == if EntriesWithId(table, id) == [] then DefaultImage else EntriesWithId(table, id)[0]
    decreases |table|
  {
    if table != [] && table[0].id != id {
      FindImageIsFirstOfFilter(table[1..], id);
      assert forall k :: 0 <= k < |table[1..]| ==> table[1..][k] == table[k + 1];
    }
  }

  /** A table that holds its own 'default' entry shadows the constant:
      `findImage('default')` is the table's first such entry. */
  lemma TableDefaultWins(table: seq<ImagePlaceholder>, k: nat)
    requires k < |table| && table[k].id == "default"
    requires forall j :: 0 <= j < k ==> table[j].id != "default"
    ensures FindImage(table, "default") == table[k]
  {
  }
}
