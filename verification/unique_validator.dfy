/**
 * The `Unique` form validator: it resolves a column specification into
 * (field name, column) pairs, looks for a stored row that agrees with the
 * submitted form on every such column, and rejects the form when that row is
 * neither the object being edited nor identified as it by the primary key.
 *
 * The object-relational mapper and the form library are abstracted: a mapped
 * class is an `Entity`, a column handle an `Attr`, the data store a table of
 * `Record`s per entity, and type coercion of primary-key values an arbitrary
 * total function.
 */
module UniqueValidator {
  import opened Wrappers

  /** A submitted or stored Python value, reduced to the shapes whose truthiness matters. */
  datatype Value = NoneValue | BoolValue(b: bool) | IntValue(i: int) | StrValue(s: string)

  /** Python truthiness: `None`, `False`, `0` and `""` are falsy. */
  predicate Truthy(v: Value)
  {
    match v
    case NoneValue => false
    case BoolValue(b) => b
    case IntValue(i) => i != 0
    case StrValue(s) => s != ""
  }

  /** A primary-key column: its attribute name and the name of its declared Python type. */
  datatype PkColumn = PkColumn(name: string, pythonType: string)

  /** A mapped class: its name, whether it carries a Flask-SQLAlchemy `query` attribute, and its primary key. */
  datatype Entity = Entity(name: string, hasQuery: bool, primaryKey: seq<PkColumn>)

  /**
   * A column handle: its `key` and the class it belongs to (`class_`). An
   * `InstrumentedAttribute` such as `User.name` has an owner; a table `Column`
   * such as `user.c.name` has no `class_` attribute.
   */
  datatype Attr = Attr(key: string, owner: Option<Entity>)

  /** The shapes a column specification may take, checked in this order by the validator. */
  datatype ColumnSpec =
    | Name(name: string)                            // a string naming an attribute of the form's model
    | Mapping(entries: seq<(string, ColumnSpec)>)   // a mapping, in iteration order (its keys are distinct)
    | Collection(items: seq<ColumnSpec>)            // any other iterable
    | Handle(attr: Attr)                            // a Column or InstrumentedAttribute
    | Other                                         // anything else

  /** A resolved (form field name, column) pair. */
  type Pair = (string, Attr)

  /** A stored row: its identity and its attribute values. */
  datatype Record = Record(rowid: nat, values: map<string, Value>)

  /** `getattr(row, key, None)`; an absent attribute reads as `None`. */
  function RowValue(row: Record, key: string): Value
  {
    if key in row.values then row.values[key] else NoneValue
  }

  /**
   * A submitted form: the column attributes of `form.Meta.model` by name, the
   * `data` of each form field by name, and `_obj` (outer `None`: the form has
   * no `_obj` attribute; `Some(None)`: creating; `Some(Some(r))`: editing `r`).
   */
  datatype Form = Form(modelAttrs: map<string, Attr>, fields: map<string, Value>, obj: Option<Option<Record>>)

  /** The rows of every mapped class, by class name, in the order `first()` sees them. */
  type Database = map<string, seq<Record>>

  function Table(db: Database, entity: Entity): seq<Record>
  {
    if entity.name in db then db[entity.name] else []
  }

  /** `pk.type.python_type(value)`, keyed by the type name. */
  type Coercion = (string, Value) -> Value

  /** What the validator raises. */
  datatype Error =
    | InvalidSyntax                    // TypeError("Invalid syntax for column")
    | MissingModelAttribute(name: string)  // AttributeError from getattr(form.Meta.model, name)
    | EmptyResolution                  // IndexError from `[0]` on an empty resolution
    | NoOwningClass                    // AttributeError from `columns[0][1].class_` on a table Column
    | NoSession                        // "Could not obtain SQLAlchemy session."
    | NoQueryParameter                 // "Validator requires either get_session or Flask-SQLAlchemy styled query parameter"
    | MissingFormField(field: string)  // KeyError from form[field_name]
    | MissingFormObj                   // "Couldn't access Form._obj attribute. ..."
    | AlreadyExists(message: string)   // ValidationError(self.message)

  datatype Outcome = Pass | Fail(error: Error)

  /** How the validator obtains its query: from `get_session()` or from the model's `query`. */
  datatype QuerySource = SessionQuery | ModelQuery

  const DefaultMessage: string := "Already exists."

  // ---------------------------------------------------------------------------
  // Normalising the column specification (`_syntaxes_as_tuples`)
  // ---------------------------------------------------------------------------

  /** The errors resolution can raise: TypeError, AttributeError and IndexError. */
  predicate ResolutionError(e: Error)
  {
    e.InvalidSyntax? || e.MissingModelAttribute? || e.EmptyResolution?
  }

  /** Resolves a column specification into (field name, column) pairs, or the error it raises. */
  function Resolve(meta: map<string, Attr>, spec: ColumnSpec): (r: Result<seq<Pair>, Error>)
    ensures r.Failure? ==> ResolutionError(r.error)
    decreases spec, 1
  {
    match spec
    case Name(n) => if n in meta then Success([(n, meta[n])]) else Failure(MissingModelAttribute(n))
    case Mapping(entries) => ResolveEntries(meta, spec, entries)
    case Collection(items) => ResolveItems(meta, spec, items)
    case Handle(a) => Success([(a.key, a)])
    case Other => Failure(InvalidSyntax)
  }

  /** One pair per entry: the entry's key and the column of the first pair its value resolves to. */
  function ResolveEntries(meta: map<string, Attr>, ghost parent: ColumnSpec, entries: seq<(string, ColumnSpec)>)
    : (r: Result<seq<Pair>, Error>)
    requires forall e | e in entries :: e.1 < parent
    ensures r.Failure? ==> ResolutionError(r.error)
    decreases parent, 0, |entries|
  {
    if entries == [] then Success([])
    else
      assert entries[0] in entries;
      assert forall e | e in entries[1..] :: e in entries;
      match Resolve(meta, entries[0].1)
      case Failure(e) => Failure(e)
      case Success(ps) =>
        if ps == [] then Failure(EmptyResolution)
        else
          match ResolveEntries(meta, parent, entries[1..])
          case Failure(e) => Failure(e)
          case Success(rest) => Success([(entries[0].0, ps[0].1)] + rest)
  }

  /** One pair per element: the first pair that element resolves to. */
  function ResolveItems(meta: map<string, Attr>, ghost parent: ColumnSpec, items: seq<ColumnSpec>)
    : (r: Result<seq<Pair>, Error>)
    requires forall x | x in items :: x < parent
    ensures r.Failure? ==> ResolutionError(r.error)
    decreases parent, 0, |items|
  {
    if items == [] then Success([])
    else
      assert items[0] in items;
      assert forall x | x in items[1..] :: x in items;
      match Resolve(meta, items[0])
      case Failure(e) => Failure(e)
      case Success(ps) =>
        if ps == [] then Failure(EmptyResolution)
        else
          match ResolveItems(meta, parent, items[1..])
          case Failure(e) => Failure(e)
          case Success(rest) => Success([ps[0]] + rest)
  }

  // ---------------------------------------------------------------------------
  // The query: one equality filter per resolved pair, then `first()`
  // ---------------------------------------------------------------------------

  /** `column == value`: the stored attribute `key` must equal `value`. */
  type Filter = (string, Value)

  /**
   * The filters `__call__` adds, in order, or the KeyError of the first pair
   * whose field name is not a field of the form.
   */
  function Filters(columns: seq<Pair>, form: Form): (r: Result<seq<Filter>, Error>)
    ensures r.Success? <==> forall i :: 0 <= i < |columns| ==> columns[i].0 in form.fields
    ensures r.Success? ==> |r.value| == |columns|
    ensures r.Success? ==> forall i :: 0 <= i < |columns| ==> r.value[i] == (columns[i].1.key, form.fields[columns[i].0])
    ensures r.Failure? ==> exists k :: 0 <= k < |columns| && r.error == MissingFormField(columns[k].0)
                                      && columns[k].0 !in form.fields
                                      && forall j :: 0 <= j < k ==> columns[j].0 in form.fields
    decreases |columns|
  {
    if columns == [] then Success([])
    else
      var init := columns[..|columns| - 1];
      var last := columns[|columns| - 1];
      assert forall i :: 0 <= i < |init| ==> init[i] == columns[i];
      match Filters(init, form)
      case Failure(e) => Failure(e)
      case Success(fs) =>
        if last.0 in form.fields then Success(fs + [(last.1.key, form.fields[last.0])])
        else Failure(MissingFormField(last.0))
  }

  /** The row satisfies every equality filter. */
  predicate Matches(row: Record, filters: seq<Filter>)
  {
    forall i :: 0 <= i < |filters| ==> RowValue(row, filters[i].0) == filters[i].1
  }

  /** The index of the first matching row, or `|rows|` when none matches. */
  function FirstMatchIndex(rows: seq<Record>, filters: seq<Filter>): (k: nat)
    ensures k <= |rows|
    ensures k < |rows| ==> Matches(rows[k], filters)
    ensures forall j :: 0 <= j < k ==> !Matches(rows[j], filters)
  {
    if rows == [] then 0
    else if Matches(rows[0], filters) then 0
    else 1 + FirstMatchIndex(rows[1..], filters)
  }

  /** `query.first()`: the first row satisfying every filter, if any. */
  function FirstMatch(rows: seq<Record>, filters: seq<Filter>): Option<Record>
  {
    var k := FirstMatchIndex(rows, filters);
    if k < |rows| then Some(rows[k]) else None
  }

  // ---------------------------------------------------------------------------
  // Update detection (the `is_update` loop)
  // ---------------------------------------------------------------------------

  /**
   * The loop body assigns `is_update` for this key: the form has the field,
   * its data is truthy, and the matched row's value is truthy.
   */
  predicate Qualifies(pk: PkColumn, form: Form, obj: Option<Record>)
  {
    pk.name in form.fields && Truthy(form.fields[pk.name]) && obj.Some? && Truthy(RowValue(obj.value, pk.name))
  }

  /** The coerced form value and the coerced stored value of a qualifying key are equal. */
  predicate KeyEqual(pk: PkColumn, form: Form, obj: Option<Record>, coerce: Coercion)
    requires Qualifies(pk, form, obj)
  {
    coerce(pk.pythonType, RowValue(obj.value, pk.name)) == coerce(pk.pythonType, form.fields[pk.name])
  }

  /** The position of the last qualifying primary-key column, if any. */
  function LastQualifying(pks: seq<PkColumn>, form: Form, obj: Option<Record>): (r: Option<nat>)
    ensures r.Some? ==> r.value < |pks| && Qualifies(pks[r.value], form, obj)
    ensures r.Some? ==> forall j :: r.value < j < |pks| ==> !Qualifies(pks[j], form, obj)
    ensures r.None? ==> forall j :: 0 <= j < |pks| ==> !Qualifies(pks[j], form, obj)
  {
    if pks == [] then None
    else if Qualifies(pks[|pks| - 1], form, obj) then Some(|pks| - 1)
    else LastQualifying(pks[..|pks| - 1], form, obj)
  }

  /** `is_update` after the loop: decided by the last qualifying key alone, false if none qualifies. */
  predicate IsUpdate(pks: seq<PkColumn>, form: Form, obj: Option<Record>, coerce: Coercion)
  {
    match LastQualifying(pks, form, obj)
    case None => false
    case Some(k) => KeyEqual(pks[k], form, obj, coerce)
  }

  // ---------------------------------------------------------------------------
  // The verdict of one call
  // ---------------------------------------------------------------------------

  /** The class `__call__` stores in `self.model`: that of the first resolved column. */
  function ResolvedModel(meta: map<string, Attr>, column: ColumnSpec): Option<Entity>
  {
    match Resolve(meta, column)
    case Failure(_) => None
    case Success(cs) => if cs == [] then None else cs[0].1.owner
  }

  /**
   * Everything up to and including `query.first()`: the model class and the
   * first matching row, or the error raised on the way.
   */
  function Lookup(column: ColumnSpec, getSession: bool, form: Form, db: Database): Result<(Entity, Option<Record>), Error>
  {
    match Resolve(form.modelAttrs, column)
    case Failure(e) => Failure(e)
    case Success(columns) =>
      if columns == [] then Failure(EmptyResolution)
      else if columns[0].1.owner.None? then Failure(NoOwningClass)
      else
        var entity := columns[0].1.owner.value;
        if !entity.hasQuery && !getSession then Failure(NoSession)
        else
          match Filters(columns, form)
          case Failure(e) => Failure(e)
          case Success(filters) => Success((entity, FirstMatch(Table(db, entity), filters)))
  }

  /** The message raised with: the configured one, or the default when none was configured. */
  function MessageOr(message: Option<string>): string
  {
    if message.Some? then message.value else DefaultMessage
  }

  /** What one call of the validator does, given the message configured before the call. */
  function Verdict(column: ColumnSpec, getSession: bool, message: Option<string>, form: Form, db: Database, coerce: Coercion): Outcome
  {
    match Lookup(column, getSession, form, db)
    case Failure(e) => Fail(e)
    case Success((entity, obj)) =>
      if form.obj.None? then Fail(MissingFormObj)
      else if !IsUpdate(entity.primaryKey, form, obj, coerce) && obj.Some? && form.obj.value != obj then
        Fail(AlreadyExists(MessageOr(message)))
      else Pass
  }

  // ---------------------------------------------------------------------------
  // Properties of the resolution
  // ---------------------------------------------------------------------------

  /** A string, a column handle and an unrecognised shape each resolve as the validator's leaf cases say. */
  lemma ResolveLeaves(meta: map<string, Attr>, name: string, a: Attr)
    ensures name in meta ==> Resolve(meta, Name(name)) == Success([(name, meta[name])])
    ensures name !in meta ==> Resolve(meta, Name(name)) == Failure(MissingModelAttribute(name))
    ensures Resolve(meta, Handle(a)) == Success([(a.key, a)])
    ensures Resolve(meta, Other) == Failure(InvalidSyntax)
  {
  }

  /**
   * A non-mapping iterable succeeds exactly when every element resolves to at
   * least one pair, and then yields the first pair of each element, in order.
   */
  lemma {:induction false} ResolveItemsShape(meta: map<string, Attr>, parent: ColumnSpec, items: seq<ColumnSpec>)
    requires forall x | x in items :: x < parent
    ensures ResolveItems(meta, parent, items).Success? <==>
              forall i :: 0 <= i < |items| ==> Resolve(meta, items[i]).Success? && Resolve(meta, items[i]).value != []
    ensures ResolveItems(meta, parent, items).Success? ==>
              |ResolveItems(meta, parent, items).value| == |items| &&
              forall i :: 0 <= i < |items| ==> ResolveItems(meta, parent, items).value[i] == Resolve(meta, items[i]).value[0]
    decreases |items|
  {
    if items != [] {
      assert forall x | x in items[1..] :: x in items;
      ResolveItemsShape(meta, parent, items[1..]);
      assert forall i :: 1 <= i < |items| ==> items[1..][i - 1] == items[i];
    }
  }

  /**
   * A mapping succeeds exactly when every value resolves to at least one pair,
   * and then yields, per entry in order, the entry's key with the column of
   * the first pair its value resolves to.
   */
  lemma {:induction false} ResolveEntriesShape(meta: map<string, Attr>, parent: ColumnSpec, entries: seq<(string, ColumnSpec)>)
    requires forall e | e in entries :: e.1 < parent
    ensures ResolveEntries(meta, parent, entries).Success? <==>
              forall i :: 0 <= i < |entries| ==> Resolve(meta, entries[i].1).Success? && Resolve(meta, entries[i].1).value != []
    ensures ResolveEntries(meta, parent, entries).Success? ==>
              |ResolveEntries(meta, parent, entries).value| == |entries| &&
              forall i :: 0 <= i < |entries| ==>
                ResolveEntries(meta, parent, entries).value[i] == (entries[i].0, Resolve(meta, entries[i].1).value[0].1)
    decreases |entries|
  {
    if entries != [] {
      assert forall e | e in entries[1..] :: e in entries;
      ResolveEntriesShape(meta, parent, entries[1..]);
      assert forall i :: 1 <= i < |entries| ==> entries[1..][i - 1] == entries[i];
    }
  }

  /** A string or a handle yields one pair, a mapping one per entry, an iterable one per element. */
  lemma ResolveLength(meta: map<string, Attr>, spec: ColumnSpec)
    ensures Resolve(meta, spec).Success? ==>
              |Resolve(meta, spec).value| == (match spec
                                              case Mapping(entries) => |entries|
                                              case Collection(items) => |items|
                                              case _ => 1)
  {
    match spec
    case Mapping(entries) => ResolveEntriesShape(meta, spec, entries);
    case Collection(items) => ResolveItemsShape(meta, spec, items);
    case _ =>
  }

  /**
   * A sequence of handles with distinct keys, and the mapping from each
   * handle's key to the handle, both resolve to the pairs (key, handle) in the same order.
   */
  lemma HandlesAndKeyedMappingAgree(meta: map<string, Attr>, hs: seq<Attr>)
    requires forall i, j :: 0 <= i < j < |hs| ==> hs[i].key != hs[j].key
    ensures Resolve(meta, Collection(seq(|hs|, i requires 0 <= i < |hs| => Handle(hs[i]))))
            == Success(seq(|hs|, i requires 0 <= i < |hs| => (hs[i].key, hs[i])))
    ensures Resolve(meta, Mapping(seq(|hs|, i requires 0 <= i < |hs| => (hs[i].key, Handle(hs[i])))))
            == Success(seq(|hs|, i requires 0 <= i < |hs| => (hs[i].key, hs[i])))
  {
    var items := seq(|hs|, i requires 0 <= i < |hs| => Handle(hs[i]));
    var entries := seq(|hs|, i requires 0 <= i < |hs| => (hs[i].key, Handle(hs[i])));
    var pairs := seq(|hs|, i requires 0 <= i < |hs| => (hs[i].key, hs[i]));
    ResolveItemsShape(meta, Collection(items), items);
    ResolveEntriesShape(meta, Mapping(entries), entries);
    assert forall i :: 0 <= i < |hs| ==> Resolve(meta, items[i]) == Success([pairs[i]]);
    assert forall i :: 0 <= i < |hs| ==> Resolve(meta, entries[i].1) == Success([pairs[i]]);
    assert ResolveItems(meta, Collection(items), items).value == pairs;
    assert ResolveEntries(meta, Mapping(entries), entries).value == pairs;
  }

  /** A nested iterable contributes only the first pair it resolves to; the rest is dropped. */
  lemma NestedCollectionKeepsFirstPair(meta: map<string, Attr>, a: Attr, b: Attr)
    ensures Resolve(meta, Collection([Collection([Handle(a), Handle(b)])])) == Success([(a.key, a)])
  {
    var inner := Collection([Handle(a), Handle(b)]);
    assert [Handle(a), Handle(b)][1..] == [Handle(b)];
    assert [Handle(b)][1..] == [];
    assert ResolveItems(meta, inner, []) == Success([]);
    assert Resolve(meta, Handle(b)) == Success([(b.key, b)]);
    assert ResolveItems(meta, inner, [Handle(b)]).value == [(b.key, b)];
    assert Resolve(meta, Handle(a)) == Success([(a.key, a)]);
    var r := ResolveItems(meta, inner, [Handle(a), Handle(b)]);
    assert r.Success? && r.value == [(a.key, a), (b.key, b)];
    assert Resolve(meta, inner) == r;
    var outer := Collection([inner]);
    assert [inner][1..] == [];
    assert ResolveItems(meta, outer, []) == Success([]);
    assert ResolveItems(meta, outer, [inner]).value == [(a.key, a)];
  }

  /** An empty iterable nested in a specification raises the IndexError of `[0]`. */
  lemma NestedEmptyCollectionRaises(meta: map<string, Attr>, spec: ColumnSpec)
    ensures Resolve(meta, Collection([Collection([]), spec])) == Failure(EmptyResolution)
    ensures Resolve(meta, Mapping([("name", Collection([])), ("other", spec)])) == Failure(EmptyResolution)
  {
    assert Resolve(meta, Collection([])) == Success([]);
  }

  // ---------------------------------------------------------------------------
  // Properties of the query
  // ---------------------------------------------------------------------------

  /** The row agrees with the submitted form on every resolved (field, column) pair. */
  predicate Agrees(row: Record, columns: seq<Pair>, form: Form)
  {
    forall i :: 0 <= i < |columns| ==> columns[i].0 in form.fields && RowValue(row, columns[i].1.key) == form.fields[columns[i].0]
  }

  /** The equality filters built from the pairs select exactly the rows that agree with the form. */
  lemma MatchesIffAgrees(row: Record, columns: seq<Pair>, form: Form)
    requires Filters(columns, form).Success?
    ensures Matches(row, Filters(columns, form).value) <==> Agrees(row, columns, form)
  {
    var fs := Filters(columns, form).value;
    if Matches(row, fs) {
      forall i | 0 <= i < |columns|
        ensures columns[i].0 in form.fields && RowValue(row, columns[i].1.key) == form.fields[columns[i].0]
      {
        assert fs[i] == (columns[i].1.key, form.fields[columns[i].0]);
      }
    }
  }

  /**
   * When the query runs, it finds the first row of the model's table that
   * agrees with the form on every resolved pair, and finds nothing exactly
   * when no row agrees; the model is the class of the first resolved column.
   */
  lemma LookupFindsFirstAgreeingRow(column: ColumnSpec, getSession: bool, form: Form, db: Database)
    requires Lookup(column, getSession, form, db).Success?
    ensures Resolve(form.modelAttrs, column).Success? && Resolve(form.modelAttrs, column).value != []
    ensures var columns := Resolve(form.modelAttrs, column).value;
            var (entity, obj) := Lookup(column, getSession, form, db).value;
            var rows := Table(db, entity);
            && columns[0].1.owner == Some(entity)
            && (entity.hasQuery || getSession)
            && (obj.None? <==> forall j :: 0 <= j < |rows| ==> !Agrees(rows[j], columns, form))
            && (obj.Some? ==> exists k :: 0 <= k < |rows| && rows[k] == obj.value && Agrees(rows[k], columns, form)
                                          && forall j :: 0 <= j < k ==> !Agrees(rows[j], columns, form))
  {
    var columns := Resolve(form.modelAttrs, column).value;
    var (entity, obj) := Lookup(column, getSession, form, db).value;
    var rows := Table(db, entity);
    var fs := Filters(columns, form).value;
    forall j | 0 <= j < |rows| ensures Matches(rows[j], fs) <==> Agrees(rows[j], columns, form) {
      MatchesIffAgrees(rows[j], columns, form);
    }
  }

  /**
   * Once the columns resolve, the session check fails exactly when the model
   * has no `query` and no `get_session` was given, before any filter is built.
   */
  lemma NoSessionIff(column: ColumnSpec, getSession: bool, form: Form, db: Database)
    requires ResolvedModel(form.modelAttrs, column).Some?
    ensures var entity := ResolvedModel(form.modelAttrs, column).value;
            Lookup(column, getSession, form, db) == Failure(NoSession) <==> !entity.hasQuery && !getSession
  {
    var columns := Resolve(form.modelAttrs, column).value;
    var f := Filters(columns, form);
    assert f.Failure? ==> f.error.MissingFormField?;
  }

  /**
   * When the first resolved column is a table `Column` without a class, the
   * call raises at `class_`, before the session check and the query.
   */
  lemma TableColumnFirstRaises(column: ColumnSpec, getSession: bool, message: Option<string>, form: Form, db: Database, coerce: Coercion)
    requires Resolve(form.modelAttrs, column).Success?
    requires Resolve(form.modelAttrs, column).value != []
    requires Resolve(form.modelAttrs, column).value[0].1.owner.None?
    ensures ResolvedModel(form.modelAttrs, column).None?
    ensures Verdict(column, getSession, message, form, db, coerce) == Fail(NoOwningClass)
  {
  }

  /** A table `Column` resolves like any handle, so it raises only when it comes first. */
  lemma TableColumnHandleRaises(key: string, getSession: bool, message: Option<string>,
                                form: Form, db: Database, coerce: Coercion)
    ensures Verdict(Handle(Attr(key, None)), getSession, message, form, db, coerce) == Fail(NoOwningClass)
    ensures Verdict(Collection([Handle(Attr(key, None))]), getSession, message, form, db, coerce) == Fail(NoOwningClass)
  {
    var h := Handle(Attr(key, None));
    var c := Collection([h]);
    var meta := form.modelAttrs;
    assert [h][1..] == [];
    assert ResolveItems(meta, c, [h][1..]) == Success([]);
    assert [h][0] == h;
    assert Resolve(meta, h) == Success([(key, Attr(key, None))]);
    assert [(key, Attr(key, None))] + [] == [(key, Attr(key, None))];
    assert ResolveItems(meta, c, [h]) == Success([(key, Attr(key, None))]);
  }

  // ---------------------------------------------------------------------------
  // Properties of update detection
  // ---------------------------------------------------------------------------

  /**
   * `is_update` holds exactly when some primary-key column qualifies, its
   * coerced values are equal, and no later column qualifies.
   */
  lemma IsUpdateIff(pks: seq<PkColumn>, form: Form, obj: Option<Record>, coerce: Coercion)
    ensures IsUpdate(pks, form, obj, coerce) <==>
              exists k :: 0 <= k < |pks| && Qualifies(pks[k], form, obj) && KeyEqual(pks[k], form, obj, coerce)
                          && forall j :: k < j < |pks| ==> !Qualifies(pks[j], form, obj)
  {
    var last := LastQualifying(pks, form, obj);
    if k :| 0 <= k < |pks| && Qualifies(pks[k], form, obj) && KeyEqual(pks[k], form, obj, coerce)
            && forall j :: k < j < |pks| ==> !Qualifies(pks[j], form, obj) {
      assert last.Some?;
      assert last.value == k;
    }
  }

  /** Without a matched row no key qualifies, so the form is never taken for an update. */
  lemma NoMatchIsNotUpdate(pks: seq<PkColumn>, form: Form, coerce: Coercion)
    ensures !IsUpdate(pks, form, None, coerce)
  {
  }

  /** A primary-key column that does not qualify (a falsy or absent value) leaves `is_update` as it was. */
  lemma {:induction false} NonQualifyingKeyIgnored(pks: seq<PkColumn>, pk: PkColumn, form: Form, obj: Option<Record>, coerce: Coercion)
    requires !Qualifies(pk, form, obj)
    ensures IsUpdate(pks + [pk], form, obj, coerce) == IsUpdate(pks, form, obj, coerce)
  {
    assert (pks + [pk])[..|pks|] == pks;
  }

  /** A qualifying primary-key column overrides whatever the earlier columns decided. */
  lemma {:induction false} LastQualifyingKeyDecides(pks: seq<PkColumn>, pk: PkColumn, form: Form, obj: Option<Record>, coerce: Coercion)
    requires Qualifies(pk, form, obj)
    ensures IsUpdate(pks + [pk], form, obj, coerce) == KeyEqual(pk, form, obj, coerce)
  {
    assert (pks + [pk])[|pks|] == pk;
  }

  // ---------------------------------------------------------------------------
  // Properties of the verdict
  // ---------------------------------------------------------------------------

  /** A form without `_obj` is an error once the query has run, whether or not a row matched. */
  lemma MissingFormObjRaisedRegardlessOfMatch(column: ColumnSpec, getSession: bool, message: Option<string>, form: Form, db: Database, coerce: Coercion)
    requires Lookup(column, getSession, form, db).Success?
    requires form.obj.None?
    ensures Verdict(column, getSession, message, form, db, coerce) == Fail(MissingFormObj)
  {
  }

  /**
   * The validator raises `ValidationError` exactly when the query ran, the form
   * has `_obj`, a row matched, the form is not an update, and `_obj` is not
   * that row; the message is the configured one or "Already exists.".
   */
  lemma AlreadyExistsIff(column: ColumnSpec, getSession: bool, message: Option<string>, form: Form, db: Database, coerce: Coercion)
    ensures var v := Verdict(column, getSession, message, form, db, coerce);
            var l := Lookup(column, getSession, form, db);
            (v.Fail? && v.error.AlreadyExists?) <==>
              (l.Success? && form.obj.Some? && l.value.1.Some?
               && !IsUpdate(l.value.0.primaryKey, form, l.value.1, coerce)
               && form.obj.value != l.value.1)
    ensures var v := Verdict(column, getSession, message, form, db, coerce);
            v.Fail? && v.error.AlreadyExists? ==> v.error.message == MessageOr(message)
  {
    var l := Lookup(column, getSession, form, db);
    if l.Failure? {
      var r := Resolve(form.modelAttrs, column);
      if r.Success? && r.value != [] {
        var f := Filters(r.value, form);
        assert f.Failure? ==> f.error.MissingFormField?;
      }
    }
  }

  /**
   * A `ValidationError` means another stored row agrees with the form on every
   * resolved column: a row of the model's table that is not the form's `_obj`.
   */
  lemma AlreadyExistsMeansCollision(column: ColumnSpec, getSession: bool, message: Option<string>, form: Form, db: Database, coerce: Coercion)
    requires Verdict(column, getSession, message, form, db, coerce).Fail?
    requires Verdict(column, getSession, message, form, db, coerce).error.AlreadyExists?
    ensures ResolvedModel(form.modelAttrs, column).Some?
    ensures var entity := ResolvedModel(form.modelAttrs, column).value;
            var columns := Resolve(form.modelAttrs, column).value;
            form.obj.Some? &&
            exists row :: row in Table(db, entity) && Agrees(row, columns, form) && form.obj.value != Some(row)
  {
    AlreadyExistsIff(column, getSession, message, form, db, coerce);
    LookupFindsFirstAgreeingRow(column, getSession, form, db);
    var (entity, obj) := Lookup(column, getSession, form, db).value;
    var rows := Table(db, entity);
    var k :| 0 <= k < |rows| && rows[k] == obj.value && Agrees(rows[k], Resolve(form.modelAttrs, column).value, form);
    assert rows[k] in rows;
  }

  /** When no stored row agrees with the form on every resolved column, no `ValidationError` is raised. */
  lemma NoAgreeingRowNeverRejects(column: ColumnSpec, getSession: bool, message: Option<string>, form: Form, db: Database, coerce: Coercion)
    requires ResolvedModel(form.modelAttrs, column).Some?
    requires forall row | row in Table(db, ResolvedModel(form.modelAttrs, column).value) ::
               !Agrees(row, Resolve(form.modelAttrs, column).value, form)
    ensures var v := Verdict(column, getSession, message, form, db, coerce);
            !(v.Fail? && v.error.AlreadyExists?)
  {
    var v := Verdict(column, getSession, message, form, db, coerce);
    if v.Fail? && v.error.AlreadyExists? {
      AlreadyExistsMeansCollision(column, getSession, message, form, db, coerce);
    }
  }

  /** A form that has `_obj` passes when `_obj` is the matched row itself, or when no row matched. */
  lemma SelfMatchPasses(column: ColumnSpec, getSession: bool, message: Option<string>, form: Form, db: Database, coerce: Coercion,
                        entity: Entity, obj: Option<Record>)
    requires Lookup(column, getSession, form, db) == Success((entity, obj))
    requires form.obj.Some? && (obj.None? || form.obj.value == obj)
    ensures Verdict(column, getSession, message, form, db, coerce) == Pass
  {
  }

  /** A form identified as an update of the matched row passes, whatever its `_obj`. */
  lemma UpdatePasses(column: ColumnSpec, getSession: bool, message: Option<string>, form: Form, db: Database, coerce: Coercion,
                     entity: Entity, obj: Option<Record>)
    requires Lookup(column, getSession, form, db) == Success((entity, obj))
    requires form.obj.Some?
    requires IsUpdate(entity.primaryKey, form, obj, coerce)
    ensures Verdict(column, getSession, message, form, db, coerce) == Pass
  {
  }

  // ---------------------------------------------------------------------------
  // Scenarios
  // ---------------------------------------------------------------------------

  const UserEntity: Entity := Entity("User", true, [PkColumn("id", "int")])
  const EmailAttr: Attr := Attr("email", Some(UserEntity))

  /** Creating a user whose email another user already has is rejected with the default message. */
  lemma CreateDuplicateEmailRejected(coerce: Coercion)
    ensures var form := Form(map["email" := EmailAttr], map["email" := StrValue("a@x.com")], Some(None));
            var db := map["User" := [Record(1, map["id" := IntValue(3), "email" := StrValue("a@x.com")])]];
            Verdict(Name("email"), false, None, form, db, coerce) == Fail(AlreadyExists("Already exists."))
  {
    var row := Record(1, map["id" := IntValue(3), "email" := StrValue("a@x.com")]);
    var form := Form(map["email" := EmailAttr], map["email" := StrValue("a@x.com")], Some(None));
    var db := map["User" := [row]];
    assert Resolve(form.modelAttrs, Name("email")) == Success([("email", EmailAttr)]);
    assert [("email", EmailAttr)][..0] == [];
    assert Filters([], form) == Success([]);
    assert Filters([("email", EmailAttr)], form).value == [("email", StrValue("a@x.com"))];
    assert Matches(row, [("email", StrValue("a@x.com"))]);
    assert Lookup(Name("email"), false, form, db) == Success((UserEntity, Some(row)));
    assert !Qualifies(PkColumn("id", "int"), form, Some(row));
  }

  /** Editing user 5 without changing its email passes: the submitted id identifies the matched row. */
  lemma EditUnchangedEmailPasses(otherObj: Record)
    ensures var row := Record(5, map["id" := IntValue(5), "email" := StrValue("a@x.com")]);
            var form := Form(map["email" := EmailAttr], map["id" := IntValue(5), "email" := StrValue("a@x.com")], Some(Some(otherObj)));
            var db := map["User" := [row]];
            Verdict(Name("email"), false, None, form, db, (t, v) => v) == Pass
  {
    var row := Record(5, map["id" := IntValue(5), "email" := StrValue("a@x.com")]);
    var form := Form(map["email" := EmailAttr], map["id" := IntValue(5), "email" := StrValue("a@x.com")], Some(Some(otherObj)));
    var db := map["User" := [row]];
    assert Resolve(form.modelAttrs, Name("email")) == Success([("email", EmailAttr)]);
    assert [("email", EmailAttr)][..0] == [];
    assert Filters([], form) == Success([]);
    assert Filters([("email", EmailAttr)], form).value == [("email", StrValue("a@x.com"))];
    assert Matches(row, [("email", StrValue("a@x.com"))]);
    assert Lookup(Name("email"), false, form, db) == Success((UserEntity, Some(row)));
    assert Qualifies(PkColumn("id", "int"), form, Some(row));
  }

  /**
   * With a composite primary key only the last qualifying column counts: a
   * stored row with another `id` but the same `tenant` is taken for the row
   * being edited, so the duplicate passes.
   */
  lemma CompositeKeyLastColumnWins(otherObj: Record)
    ensures var tenancy := Entity("Page", true, [PkColumn("id", "int"), PkColumn("tenant", "int")]);
            var slug := Attr("slug", Some(tenancy));
            var stored := Record(7, map["id" := IntValue(7), "tenant" := IntValue(1), "slug" := StrValue("home")]);
            var form := Form(map["slug" := slug],
                             map["id" := IntValue(5), "tenant" := IntValue(1), "slug" := StrValue("home")],
                             Some(Some(otherObj)));
            var db := map["Page" := [stored]];
            && RowValue(stored, "id") != form.fields["id"]
            && (otherObj != stored ==> Verdict(Name("slug"), false, None, form, db, (t, v) => v) == Pass)
  {
    var tenancy := Entity("Page", true, [PkColumn("id", "int"), PkColumn("tenant", "int")]);
    var slug := Attr("slug", Some(tenancy));
    var stored := Record(7, map["id" := IntValue(7), "tenant" := IntValue(1), "slug" := StrValue("home")]);
    var form := Form(map["slug" := slug],
                     map["id" := IntValue(5), "tenant" := IntValue(1), "slug" := StrValue("home")],
                     Some(Some(otherObj)));
    var db := map["Page" := [stored]];
    assert Resolve(form.modelAttrs, Name("slug")) == Success([("slug", slug)]);
    assert [("slug", slug)][..0] == [];
    assert Filters([], form) == Success([]);
    assert Filters([("slug", slug)], form).value == [("slug", StrValue("home"))];
    assert Matches(stored, [("slug", StrValue("home"))]);
    assert Lookup(Name("slug"), false, form, db) == Success((tenancy, Some(stored)));
    LastQualifyingKeyDecides([PkColumn("id", "int")], PkColumn("tenant", "int"), form, Some(stored), (t, v) => v);
    assert [PkColumn("id", "int")] + [PkColumn("tenant", "int")] == tenancy.primaryKey;
  }

  // ---------------------------------------------------------------------------
  // The validator object
  // ---------------------------------------------------------------------------

  /** The loop of `__call__` that adds one equality filter per resolved pair. */
  method BuildFilters(columns: seq<Pair>, form: Form) returns (r: Result<seq<Filter>, Error>)
    ensures r == Filters(columns, form)
  {
    var filters: seq<Filter> := [];
    var i := 0;
    while i < |columns|
      invariant 0 <= i <= |columns|
      invariant Filters(columns[..i], form) == Success(filters)
    {
      var (fieldName, attr) := columns[i];
      assert columns[..i + 1][..i] == columns[..i];
      if fieldName !in form.fields {
        assert Filters(columns[..i + 1], form).Failure?;
        return Failure(MissingFormField(fieldName));
      }
      filters := filters + [(attr.key, form.fields[fieldName])];
      i := i + 1;
    }
    assert columns[..i] == columns;
    return Success(filters);
  }

  /** The loop of `__call__` over the primary-key columns that computes `is_update`. */
  method DetectUpdate(pks: seq<PkColumn>, form: Form, obj: Option<Record>, coerce: Coercion) returns (isUpdate: bool)
    ensures isUpdate == IsUpdate(pks, form, obj, coerce)
  {
    isUpdate := false;
    ghost var last: Option<nat> := None;
    for k := 0 to |pks|
      invariant last == LastQualifying(pks[..k], form, obj)
      invariant isUpdate == (last.Some? && KeyEqual(pks[last.value], form, obj, coerce))
    {
      assert pks[..k + 1][..k] == pks[..k];
      var pk := pks[k];
      if pk.name in form.fields {
        var formPkValue := form.fields[pk.name];
        if Truthy(formPkValue) {
          var modelPkValue := if obj.Some? then RowValue(obj.value, pk.name) else NoneValue;
          if Truthy(modelPkValue) {
            isUpdate := coerce(pk.pythonType, modelPkValue) == coerce(pk.pythonType, formPkValue);
            last := Some(k);
          }
        }
      }
    }
    assert pks[..|pks|] == pks;
  }

  class Unique {
    /** The column specification given at construction. */
    const column: ColumnSpec
    /** Whether a `get_session` callable was given. */
    const getSession: bool
    /** `self.message`; `None` until configured or first defaulted. */
    var message: Option<string>
    /** `self.model`; unset until a call resolves its columns. */
    var model: Option<Entity>

    constructor (column: ColumnSpec, getSession: bool, message: Option<string>)
      ensures this.column == column && this.getSession == getSession
      ensures this.message == message && model == None
    {
      this.column := column;
      this.getSession := getSession;
      this.message := message;
      model := None;
    }

    /**
     * The `query` property together with `_check_for_session`: fails exactly
     * when there is neither a `get_session` nor a `query` on the model, and
     * prefers `get_session` when both exist.
     */
    method Query() returns (r: Result<QuerySource, Error>)
      requires model.Some?
      ensures r.Failure? <==> !model.value.hasQuery && !getSession
      ensures r.Failure? ==> r.error == NoSession
      ensures r.Success? ==> (r.value == SessionQuery <==> getSession)
    {
      if !model.value.hasQuery && !getSession {
        return Failure(NoSession);
      }
      if getSession {
        r := Success(SessionQuery);
      } else if model.value.hasQuery {
        r := Success(ModelQuery);
      } else {
        r := Failure(NoQueryParameter);
      }
    }

    /** `__call__(form, field)`: validates `form` against the rows in `db`. */
    method Call(form: Form, db: Database, coerce: Coercion) returns (outcome: Outcome)
      modifies this`model, this`message
      ensures outcome == Verdict(column, getSession, old(message), form, db, coerce)
      ensures model == (if ResolvedModel(form.modelAttrs, column).Some? then ResolvedModel(form.modelAttrs, column) else old(model))
      ensures message == (if outcome.Fail? && outcome.error.AlreadyExists? then Some(MessageOr(old(message))) else old(message))
    {
      var resolved := Resolve(form.modelAttrs, column);
      if resolved.Failure? {
        return Fail(resolved.error);
      }
      var columns := resolved.value;
      if |columns| == 0 {
        return Fail(EmptyResolution);
      }
      if columns[0].1.owner.None? {
        return Fail(NoOwningClass);
      }
      model := columns[0].1.owner;
      var source := Query();
      if source.Failure? {
        return Fail(source.error);
      }

      var filters := BuildFilters(columns, form);
      if filters.Failure? {
        return Fail(filters.error);
      }
      var entity := model.value;
      var obj := FirstMatch(Table(db, entity), filters.value);
      assert Lookup(column, getSession, form, db) == Success((entity, obj));

      if form.obj.None? {
        return Fail(MissingFormObj);
      }

      var isUpdate := DetectUpdate(entity.primaryKey, form, obj, coerce);
      if !isUpdate && obj.Some? && form.obj.value != obj {
        if message.None? {
          message := Some(DefaultMessage);
        }
        return Fail(AlreadyExists(message.value));
      }
      return Pass;
    }
  }
}
