# Unique validator and fixture helpers of firedash, in Dafny

This project models two pieces of the firedash server:

- **`Unique`**, the form validator in `server/models/validators/unique_validator.py`.
  It normalises a column specification into `(field name, column)` pairs.
  The specification may be a string, a mapping, another iterable, or a column handle.
  The validator then looks up the first stored row of the model's table that agrees with the submitted form on every pair.
  It raises a `ValidationError` when such a row exists, the form is not an update of it, and the row is not the form's `_obj`.
  Module `UniqueValidator` (file `unique_validator.dfy`) models this.
  - `Resolve` is the pure resolver.
  - `Lookup` and `Verdict` state what one call does.
  - The class `Unique` holds the configuration and the fields `message` and `model` that a call writes.
  - Its `Call` method runs the two loops of `__call__`, as the methods `BuildFilters` and `DetectUpdate`.
  - `Call` is proved to return `Verdict`.
- **The fixture helpers** in `server/utils/random.py`: `random_int_values` and `random_datetime_range`.
  Module `RandomFixtures` (file `random_fixtures.dfy`) models them.
  The range loop is proved equal to a closed form, `DatetimeRange`.
  Lemmas state the length of that closed form, where it stops, its first element and its ordering.

The model abstracts the libraries around the code as follows:

- A mapped class is an `Entity`: its name, whether it has a Flask-SQLAlchemy `query` attribute, and its primary-key columns.
- A column handle is an `Attr`: its `key`, and its `class_` as an optional owner.
  An `InstrumentedAttribute` such as `User.email` has an owner; a table `Column` has none, and reading its `class_` raises `AttributeError`.
- The data store is a table of `Record`s per class name.
- `query.first()` returns the first row of that table that satisfies every equality filter.
- Coercion by `pk.type.python_type` is an arbitrary total function, `Coercion`.
- Datetimes are integer microseconds since the Unix epoch.
- `strftime` is an arbitrary function of the time and the format.
- A `randint` draw is an unconstrained choice within its bounds.

## Behaviour worth knowing

- A form without `_obj` raises after the query, even when no row matched (`MissingFormObjRaisedRegardlessOfMatch`).
- A nested iterable contributes only the first pair it resolves to, not all of them (`NestedCollectionKeepsFirstPair`).
- `self.message` is not fixed at construction.
  The first rejection with no configured message stores "Already exists." in it, and later calls keep it (`Unique.Call`).
- An empty resolution raises the `IndexError` of `columns[0]` (`NestedEmptyCollectionRaises`, and the `EmptyResolution` case of `Verdict`).
- A table `Column` placed first raises the `AttributeError` of `class_` before any query (`TableColumnFirstRaises`, `TableColumnHandleRaises`).
- With a composite primary key, only the last column whose form and stored values are both truthy decides `is_update`.
  `CompositeKeyLastColumnWins` shows the effect: a duplicate of another row passes.

## Model

| member | source | states |
|---|---|---|
| `UniqueValidator.Resolve` | server/models/validators/unique_validator.py:57-71 | resolution raises only the TypeError of an unrecognised shape, the AttributeError of an unknown model attribute, or the IndexError of an empty resolution |
| `UniqueValidator.ResolveLeaves` | server/models/validators/unique_validator.py:57-71 | a string resolves to `(name, model.name)` (AttributeError if the model lacks it); a handle to `(handle.key, handle)`; any other shape raises TypeError |
| `UniqueValidator.ResolveEntriesShape` | server/models/validators/unique_validator.py:61-65 | a mapping succeeds iff every value resolves to at least one pair; it then yields one pair per entry, in order: the entry's key and the column of its value's first pair |
| `UniqueValidator.ResolveItemsShape` | server/models/validators/unique_validator.py:66-67 | an iterable succeeds iff every element resolves to at least one pair; it then yields exactly one pair per element: that element's first pair |
| `UniqueValidator.ResolveLength` | server/models/validators/unique_validator.py:57-71 | a successful resolution has one pair for a string or handle, one per entry for a mapping, one per element for an iterable |
| `UniqueValidator.HandlesAndKeyedMappingAgree` | server/models/validators/unique_validator.py:61-69 | a sequence of handles with distinct keys and the mapping from each handle's key to the handle resolve to the same pairs |
| `UniqueValidator.NestedCollectionKeepsFirstPair` | server/models/validators/unique_validator.py:66-67 | a nested iterable contributes only its first pair |
| `UniqueValidator.NestedEmptyCollectionRaises` | server/models/validators/unique_validator.py:61-67 | an empty iterable nested in an iterable or a mapping raises the IndexError of `[0]` |
| `UniqueValidator.Filters` | server/models/validators/unique_validator.py:78-79 | the filters exist iff every resolved field name is a form field; then there is one filter per pair, in order, equating the column with that field's data; otherwise the KeyError names the first missing field |
| `UniqueValidator.BuildFilters` | server/models/validators/unique_validator.py:78-79 | the filter loop builds exactly `Filters` |
| `UniqueValidator.FirstMatchIndex` | server/models/validators/unique_validator.py:81 | `first()` picks a row satisfying every filter, and no earlier row satisfies them all |
| `UniqueValidator.MatchesIffAgrees` | server/models/validators/unique_validator.py:78-81 | a row passes the filters iff it agrees with the form on every resolved pair |
| `UniqueValidator.LookupFindsFirstAgreeingRow` | server/models/validators/unique_validator.py:74-81 | the model is the class of the first resolved column; the match is the first row of its table that agrees with the form on all pairs, and there is no match iff no row agrees |
| `UniqueValidator.TableColumnFirstRaises` | server/models/validators/unique_validator.py:74-75 | when the first resolved column has no `class_`, the model stays unresolved and the call raises `AttributeError`, before the session check and the query |
| `UniqueValidator.TableColumnHandleRaises` | server/models/validators/unique_validator.py:66-75 | a bare table `Column`, or an iterable holding one, as the validator's column raises `AttributeError` at `class_` |
| `UniqueValidator.NoSessionIff` | server/models/validators/unique_validator.py:41-55 | once the columns resolve, the session error is raised iff the model has no `query` and no `get_session` was given, before any filter is built |
| `UniqueValidator.Unique.Query` | server/models/validators/unique_validator.py:40-55 | the query fails iff there is neither `get_session` nor a model `query`; `get_session` is used whenever it is given; the final `raise` of the property is modelled, and its branch is proved unreachable |
| `UniqueValidator.LastQualifying` | server/models/validators/unique_validator.py:93-102 | finds the last primary-key column whose form field exists with truthy data and whose stored value is truthy; no later column has both, and none qualifies when it finds none |
| `UniqueValidator.DetectUpdate` | server/models/validators/unique_validator.py:90-106 | the primary-key loop computes exactly `IsUpdate` |
| `UniqueValidator.IsUpdateIff` | server/models/validators/unique_validator.py:90-106 | `is_update` holds iff some key qualifies, its coerced values are equal, and no later key qualifies |
| `UniqueValidator.NoMatchIsNotUpdate` | server/models/validators/unique_validator.py:100-102 | with no matched row, `is_update` stays false |
| `UniqueValidator.NonQualifyingKeyIgnored` | server/models/validators/unique_validator.py:94-102 | a key with an absent or falsy value leaves `is_update` unchanged |
| `UniqueValidator.LastQualifyingKeyDecides` | server/models/validators/unique_validator.py:102-106 | a qualifying key overwrites `is_update` with its own comparison, whatever earlier keys decided |
| `UniqueValidator.MissingFormObjRaisedRegardlessOfMatch` | server/models/validators/unique_validator.py:81-88 | once the query has run, a form without `_obj` raises, whether or not a row matched |
| `UniqueValidator.AlreadyExistsIff` | server/models/validators/unique_validator.py:108-112 | `ValidationError` is raised iff the query ran, `_obj` exists, a row matched, `is_update` is false and `_obj` is not that row; its message is the configured one or "Already exists." |
| `UniqueValidator.AlreadyExistsMeansCollision` | server/models/validators/unique_validator.py:74-112 | a `ValidationError` implies a row of the model's table that agrees with the form on every resolved pair and is not `_obj` |
| `UniqueValidator.NoAgreeingRowNeverRejects` | server/models/validators/unique_validator.py:108-109 | if no stored row agrees with the form, no `ValidationError` is raised |
| `UniqueValidator.SelfMatchPasses` | server/models/validators/unique_validator.py:108-109 | a form with an `_obj` passes when `_obj` is the matched row or no row matched |
| `UniqueValidator.UpdatePasses` | server/models/validators/unique_validator.py:108 | a form recognised as an update of the matched row passes |
| `UniqueValidator.CreateDuplicateEmailRejected` | server/models/validators/unique_validator.py:73-112 | creating a user with another user's email and no id raises "Already exists." |
| `UniqueValidator.EditUnchangedEmailPasses` | server/models/validators/unique_validator.py:90-108 | editing user 5 with id 5 and an unchanged email passes |
| `UniqueValidator.CompositeKeyLastColumnWins` | server/models/validators/unique_validator.py:93-106 | with primary key (id, tenant), a stored row with another id but the same tenant counts as an update, so the duplicate passes |
| `UniqueValidator.Unique.constructor` | server/models/validators/unique_validator.py:35-38 | stores the column, `get_session` and message; `model` is unset |
| `UniqueValidator.Unique.Call` | server/models/validators/unique_validator.py:73-112 | returns `Verdict`; sets `model` to the resolved class whenever resolution gets that far; stores "Already exists." into an unset `message` exactly when it raises `ValidationError` |
| `RandomFixtures.RandomIntValues` | server/utils/random.py:8-14 | returns `max(amount, 0)` values, each within `[min_value, max_value]`; raises iff a draw is made from an empty range |
| `RandomFixtures.RandomDatetimeRange` | server/utils/random.py:17-31 | the `while current < end` loop returns exactly `DatetimeRange`; it is called only with a positive step or an empty range |
| `RandomFixtures.LoopResultIsRange` | server/utils/random.py:23-31 | what the loop holds when it stops, with its last time before `end` and the next one at or past it, is the closed-form range |
| `RandomFixtures.RangeStopsBeforeEnd` | server/utils/random.py:21-29 | element `i` is at `start + i*delta < end` and the next step reaches `end`, so the endpoint is excluded and the length is ceil((end-start)/delta); the range is empty iff `start >= end` |
| `RandomFixtures.RangeStartsAtStart` | server/utils/random.py:20-25 | a non-empty range starts with `start` |
| `RandomFixtures.EpochMillisMonotone` | server/utils/random.py:27 | epoch milliseconds never decrease with time, and increase once a whole second passes |
| `RandomFixtures.RangeEpochMillisOrdered` | server/utils/random.py:24-29 | without a format the elements are epoch milliseconds; they never decrease, and strictly increase for a step of at least one second |
| `RandomFixtures.DefaultCallFormatsEachSecond` | server/utils/random.py:17-29 | with the defaults (a one-second step, format "%Y-%m-%d %H-%M-%S"), the format is truthy and the range lists every whole second from `start` before `end`, each formatted; it is empty iff `start >= end` |
| `RandomFixtures.ThreeSecondRange` | server/utils/random.py:17-31 | three seconds in one-second steps without a format give three values, one second apart, excluding the endpoint |

## Left out

- SQL semantics of the query. The equality filter is structural equality of values, including `None`, which matches SQL's `IS NULL`. Database type coercion and collation are not modelled.
- Row order. `first()` without `ORDER BY` takes the table's order in the model.
- Joins. All filters apply to the table of the first column's class. Columns from other classes are matched by key against that table.
- Sessions. Whether the query comes from `get_session()` or from the model's `query`, it reads the same table. `get_session` is modelled only as given or not given.
- Translation. `field.gettext` is the identity, so the message is a plain string. The `field` argument has no other use and is dropped.
- Mapping keys. A `Mapping` holds distinct keys, as a Python dict does. The datatype does not enforce this, and lemmas that rely on it say so in their `requires`.
- Attribute lookup. `getattr(form.Meta.model, name)` finds only column attributes, and a name bound to anything else counts as missing. `getattr(form, pk.name)` finds only form fields, and a field object is always truthy.
- Coercion. `pk.type.python_type` is total in the model. Its own exceptions (a `ValueError` from `int("x")`) are not modelled.
- Object equality. `form._obj == obj` is equality of stored records, which stands for SQLAlchemy's identity map. An `_obj` loaded in another session is not distinguished.
- Python values. Only `None`, booleans, integers and strings are modelled, with their truthiness. The form's `_obj` and the matched row are always truthy.
- Imports. The imports of `Iterable` and `Mapping` from `collections` fail on recent Python versions. This is not modelled.
- The random generator. The global `seed(1)` and `randint`'s algorithm are left out, so reproducibility and uniform distribution are not modelled.
- RandomIntValues: proves only that each draw lies within the bounds. The values drawn are not modelled.
- RandomDatetimeRange: requires `delta > 0` or `start >= end`. With a zero step the source loop never ends. With a negative step it runs down to `datetime.min` and raises `OverflowError`, which unbounded integer times cannot show.
- Datetime arithmetic and formatting. Times are unbounded integer microseconds, so overflow past the datetime range is not modelled. Time-zone-aware datetimes (whose `timetuple` is local) are not modelled either. `strftime` output is an arbitrary function of the time.
