/** The pure selector logic of the `tabular_getInfo` publication: how the
    client's selector is normalised and joined with the table's own
    selector, and how the effective selector is translated into a query on
    the shared removal log. */
module Selectors {
  import opened Values

  /** The table's `selector` option: absent, a literal object, or a
      function of the user id, of which only the result is seen here
      (`None` stands for a falsy result). */
  datatype TableSelector =
    | NoTableSelector
    | Literal(selector: Selector)
    | FromUser(result: Option<Selector>)

  /** `selector = selector || {}`: a null or absent client selector becomes
      the empty object; an object, even an empty one, is kept. */
  function NormalizeClient(client: Option<Selector>): (r: Selector)
    ensures client.None? ==> IsEmpty(r)
    ensures client.Some? ==> r == client.value
  {
    if client.Some? then client.value else map[]
  }

  /** The table selector that takes part in the join, if `table.selector`
      is set; a falsy function result becomes `{}`. */
  function ResolveTableSelector(t: TableSelector): (r: Option<Selector>)
    ensures t.NoTableSelector? <==> r.None?
    ensures t.Literal? ==> r == Some(t.selector)
    ensures t.FromUser? && t.result.Some? ==> r == t.result
    ensures t.FromUser? && t.result.None? ==> r == Some(map[])
  {
    match t
    case NoTableSelector => None
    case Literal(s) => Some(s)
    case FromUser(res) => Some(if res.Some? then res.value else map[])
  }

  /** `{$and: [table, client]}`, table selector first. */
  function AndOf(table: Selector, client: Selector): Selector
  {
    map["$and" := Arr([Obj(table), Obj(client)])]
  }

  /** Joins the table selector with the client selector: an empty side
      yields the other side unchanged, otherwise both are kept whole under
      `$and`, never merged key by key. */
  function Combine(table: Selector, client: Selector): Selector
  {
    if IsEmpty(client) then table
    else if IsEmpty(table) then client
    else AndOf(table, client)
  }

  /** The selector the publication queries with: the normalised client
      selector, passed through the table's `changeSelector` hook when it
      has one, and joined with the table selector when there is one. */
  function EffectiveSelector(client: Option<Selector>,
                             changeSelector: Option<Selector -> Selector>,
                             table: TableSelector): (r: Selector)
    ensures table.NoTableSelector? ==> r == HookedClient(client, changeSelector)
    ensures table.NoTableSelector? && changeSelector.None? ==> r == NormalizeClient(client)
    ensures ResolveTableSelector(table).Some? ==>
              r == Combine(ResolveTableSelector(table).value, HookedClient(client, changeSelector))
    ensures table.Literal? && changeSelector.None? && client.None? ==> r == table.selector
    ensures table.Literal? && !IsEmpty(table.selector) && changeSelector.None? && client.Some? && !IsEmpty(client.value)
            ==> r == AndOf(table.selector, client.value)
  {
    var changed := HookedClient(client, changeSelector);
    match ResolveTableSelector(table)
    case None => changed
    case Some(t) => Combine(t, changed)
  }

  /** The normalised client selector after the `changeSelector` hook. */
  function HookedClient(client: Option<Selector>, changeSelector: Option<Selector -> Selector>): Selector
  {
    var c := NormalizeClient(client);
    if changeSelector.Some? then changeSelector.value(c) else c
  }

  /** The cases of the join, each stated on its own. */
  lemma CombineCases(table: Selector, client: Selector)
    ensures IsEmpty(client) ==> Combine(table, client) == table
    ensures IsEmpty(table) ==> Combine(table, client) == client
    ensures !IsEmpty(table) && !IsEmpty(client) ==>
              Combine(table, client) == map["$and" := Arr([Obj(table), Obj(client)])]
  {
  }

  // ---------------------------------------------------------------------
  // A reference meaning for selectors, to state what the join achieves.

  /** A document: the top-level fields of a record. */
  type Doc = map<string, Value>

  /** How one non-`$and` key of a selector is tested against a document;
      the data store's operators are not modelled, so this is a parameter. */
  type FieldTest = (Doc, string, Value) -> bool

  /** A document matches a selector when it passes every key: `$and` needs
      an array of selectors that all match, any other key goes to `test`. */
  predicate Matches(test: FieldTest, doc: Doc, sel: Selector)
    decreases Obj(sel), 1
  {
    forall k | k in sel :: KeyMatches(test, doc, sel, k)
  }

  predicate KeyMatches(test: FieldTest, doc: Doc, sel: Selector, k: string)
    requires k in sel
    decreases Obj(sel), 0
  {
    if k == "$and" then
      match sel[k]
      case Arr(items) =>
        forall i | 0 <= i < |items| :: items[i].Obj? && Matches(test, doc, items[i].fields)
      case _ => false
    else test(doc, k, sel[k])
  }

  /** The joined selector matches exactly the documents that match both the
      table selector and the client selector, whatever the field tests are. */
  lemma {:induction false} CombineMatchesBoth(test: FieldTest, doc: Doc, table: Selector, client: Selector)
    ensures Matches(test, doc, Combine(table, client)) <==> Matches(test, doc, table) && Matches(test, doc, client)
  {
    if !IsEmpty(table) && !IsEmpty(client) {
      var r := AndOf(table, client);
      var items := [Obj(table), Obj(client)];
      assert r["$and"] == Arr(items);
      assert (forall i | 0 <= i < |items| :: items[i].Obj? && Matches(test, doc, items[i].fields))
             <==> Matches(test, doc, items[0].fields) && Matches(test, doc, items[1].fields);
      assert KeyMatches(test, doc, r, "$and") <==> Matches(test, doc, table) && Matches(test, doc, client);
      assert Matches(test, doc, r) <==> KeyMatches(test, doc, r, "$and");
    } else if IsEmpty(client) {
      assert client == map[];
    } else {
      assert table == map[];
    }
  }

  /** What the effective selector selects: the documents the (hooked)
      client selector selects, narrowed by the table selector when the
      table has one. */
  lemma EffectiveSelectorMatches(test: FieldTest, doc: Doc, client: Option<Selector>,
                                 changeSelector: Option<Selector -> Selector>, table: TableSelector)
    ensures var t := ResolveTableSelector(table);
            Matches(test, doc, EffectiveSelector(client, changeSelector, table))
            <==> Matches(test, doc, HookedClient(client, changeSelector))
                 && (t.Some? ==> Matches(test, doc, t.value))
  {
    var t := ResolveTableSelector(table);
    if t.Some? {
      CombineMatchesBoth(test, doc, t.value, HookedClient(client, changeSelector));
    }
  }

  // ---------------------------------------------------------------------
  // The removal-log selector.

  /** The keys the translation rewrites; every other key is copied as is. */
  predicate IsRemovalKey(k: string)
  {
    k in {"collection", "className", "created_at", "updated_at",
          "oldClassName", "oldCreated_at", "oldUpdated_at"}
  }

  /** `if (r[from]) r[to] = r[from]`: copies a truthy value to its old-
      prefixed name and leaves the map alone otherwise. */
  function CopyIfTruthy(m: Selector, from: string, to: string): Selector
  {
    if TruthyAt(m, from) then m[to := m[from]] else m
  }

  /** States, for one original key and its old- prefixed name, what the
      translation leaves under the old- name. */
  predicate OldCopy(base: Selector, r: Selector, from: string, to: string)
  {
    && (TruthyAt(base, from) ==> to in r && r[to] == base[from])
    && (!TruthyAt(base, from) ==> (to in r <==> to in base) && (to in base ==> r[to] == base[to]))
  }

  /** The query on the shared removal log that stands for removals from this
      table: a shallow copy of the current selector (none at all reads as
      `{}`) with `collection` set to the table's collection name, the truthy
      `className`, `created_at` and `updated_at` conditions copied to
      `oldClassName`, `oldCreated_at` and `oldUpdated_at`, and the three
      original keys deleted. */
  function RemovalSelector(selector: Option<Selector>, collectionName: string): Selector
  {
    var base := if selector.Some? then selector.value else map[];
    var withCollection := base["collection" := Str(collectionName)];
    var c1 := CopyIfTruthy(withCollection, "className", "oldClassName");
    var c2 := CopyIfTruthy(c1, "created_at", "oldCreated_at");
    var c3 := CopyIfTruthy(c2, "updated_at", "oldUpdated_at");
    c3 - {"className", "created_at", "updated_at"}
  }

  /** What the translation guarantees: `collection` always names the
      table's collection, overriding any client condition on it; the three
      original keys are never left; an old- key receives the original's
      condition exactly when that condition was truthy, and is otherwise as
      the selector had it; every other key is kept unchanged. */
  lemma RemovalSelectorTranslates(selector: Option<Selector>, collectionName: string)
    ensures var r := RemovalSelector(selector, collectionName);
            var base := if selector.Some? then selector.value else map[];
            && "collection" in r && r["collection"] == Str(collectionName)
            && "className" !in r && "created_at" !in r && "updated_at" !in r
            && OldCopy(base, r, "className", "oldClassName")
            && OldCopy(base, r, "created_at", "oldCreated_at")
            && OldCopy(base, r, "updated_at", "oldUpdated_at")
            && (forall k | !IsRemovalKey(k) :: (k in r <==> k in base) && (k in base ==> r[k] == base[k]))
  {
  }
}
