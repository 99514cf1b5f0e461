/** The foreign-key mixin of the schema-statement API: argument normalisation,
    constraint-name derivation, assembly of the ADD / DROP CONSTRAINT statements
    and the policy that runs them (one fallback for DROP, a bare `rescue` that
    catches StandardErrors only). */
module SchemaStatements {
  import opened Wrappers
  import opened Text

  /** A Ruby object passed as an argument, with the text its `to_s` gives:
      a String, a Symbol, or any other object (a number, nil, ...). */
  datatype Value = Str(s: string) | Sym(name: string) | Obj(shown: string)

  /** `to_s`: a String is itself, a Symbol its name, any other object its rendering. */
  function ToS(v: Value): string
  {
    match v
    case Str(s) => s
    case Sym(name) => name
    case Obj(shown) => shown
  }

  /** A `foreign_key` or `references` argument as the caller passes it:
      one object, or an Array that the call rewrites in place. */
  datatype RawArg = Single(v: Value) | List(elems: array<Value>)

  /** The same argument after normalisation: a String, an Array of Strings, or
      an object that is neither (kept as it is, shown through `to_s`). */
  datatype Arg = Scalar(s: string) | Many(items: seq<string>) | Other(shown: string)

  /** The options hash; an absent key and a `nil` or `false` value are all `None`. */
  datatype Options = Options(name: Option<string>, onUpdate: Option<string>, onDelete: Option<string>)

  /** What the statement executor raises. `standard` tells whether it is a
      StandardError, the only kind a bare `rescue` catches; Interrupt,
      NoMemoryError or a ScriptError such as NotImplementedError are not. */
  datatype DbError = DbError(message: string, standard: bool)

  /** How a call ends: normally, with the error handed to the reporting hook, or
      with the error raised to the caller. */
  datatype Outcome = Ok | Reported(err: DbError) | Raised(err: DbError)

  /** The host's `execute`: for each statement, `None` if it runs, or the error it raises. */
  type Executor = string -> Option<DbError>

  /** The longest constraint name that is derived (a common identifier-length limit). */
  const MaxNameLength := 64

  // ---------------------------------------------------------------------------
  // Argument normalisation (prep_args)
  // ---------------------------------------------------------------------------

  /** The elements as `collect! { |x| x.to_s }` leaves them. */
  function Stringified(vs: seq<Value>): (r: seq<Value>)
    ensures |r| == |vs|
    ensures forall i :: 0 <= i < |vs| ==> r[i] == Str(ToS(vs[i]))
  {
    if vs == [] then [] else [Str(ToS(vs[0]))] + Stringified(vs[1..])
  }

  /** The texts of the elements, in order. */
  function Texts(vs: seq<Value>): (r: seq<string>)
    ensures |r| == |vs|
    ensures forall i :: 0 <= i < |vs| ==> r[i] == ToS(vs[i])
  {
    if vs == [] then [] else [ToS(vs[0])] + Texts(vs[1..])
  }

  /** Converting twice is converting once, and the texts do not change; so an
      Array passed as both `foreign_key` and `references` ends up the same. */
  lemma StringifiedIdempotent(vs: seq<Value>)
    ensures Stringified(Stringified(vs)) == Stringified(vs)
    ensures Texts(Stringified(vs)) == Texts(vs)
  {
  }

  /** A single (non-Array) argument after normalisation: a Symbol becomes its String. */
  function Normalized(v: Value): (a: Arg)
    ensures v.Str? ==> a == Scalar(v.s)
    ensures v.Sym? ==> a == Scalar(v.name)
    ensures v.Obj? ==> a == Other(v.shown)
  {
    match v
    case Str(s) => Scalar(s)
    case Sym(name) => Scalar(name)
    case Obj(shown) => Other(shown)
  }

  /** The arrays an argument lets the call write to. */
  function Arrays(a: RawArg): set<array<Value>>
  {
    if a.List? then {a.elems} else {}
  }

  /** What a raw argument denotes once normalised, read from the current heap. */
  function Prepared(a: RawArg): Arg
    reads Arrays(a)
  {
    match a
    case Single(v) => Normalized(v)
    case List(elems) => Many(Texts(elems[..]))
  }

  /** `collect! { |x| x.to_s }`: every element replaced, in place, by its String. */
  method StringifyInPlace(a: array<Value>)
    modifies a
    ensures a[..] == Stringified(old(a[..]))
  {
    var i := 0;
    while i < a.Length
      invariant 0 <= i <= a.Length
      invariant forall k :: 0 <= k < i ==> a[k] == Str(ToS(old(a[k])))
      invariant forall k :: i <= k < a.Length ==> a[k] == old(a[k])
    {
      a[i] := Str(ToS(a[i]));
      i := i + 1;
    }
  }

  /** `prep_args`: the table name becomes a String, a Symbol argument its String,
      and every element of an Array argument is converted in place (same length,
      same order). */
  method PrepArgs(table: Value, fk: RawArg, ref: RawArg) returns (t: string, f: Arg, r: Arg)
    modifies Arrays(fk), Arrays(ref)
    ensures t == ToS(table)
    ensures f == old(Prepared(fk)) && r == old(Prepared(ref))
    ensures fk.List? ==> fk.elems[..] == Stringified(old(fk.elems[..]))
    ensures ref.List? ==> ref.elems[..] == Stringified(old(ref.elems[..]))
  {
    t := ToS(table);
    f := Prepared(fk);
    r := Prepared(ref);
    if fk.List? {
      StringifyInPlace(fk.elems);
    }
    if ref.List? {
      ghost var before := ref.elems[..];
      StringifyInPlace(ref.elems);
      StringifiedIdempotent(before);
    }
  }

  // ---------------------------------------------------------------------------
  // Constraint-name derivation (get_constraint_name)
  // ---------------------------------------------------------------------------

  /** What one argument adds to a derived name: `_` and the String, `_` and the
      Array joined by `_`, or nothing for any other object. */
  function NamePart(a: Arg): (r: string)
    ensures r == "" <==> a.Other?
    ensures r != "" ==> r[0] == '_'
  {
    match a
    case Scalar(s) => "_" + s
    case Many(items) => "_" + Join(items, "_")
    case Other(_) => ""
  }

  /** The derived name before truncation, built in a fresh string from the table
      name: it starts with the table name, which it extends only by String and
      Array arguments, each part starting with `_`. */
  function DerivedName(table: string, fk: Arg, ref: Arg): (r: string)
    ensures table <= r
    ensures r == table <==> fk.Other? && ref.Other?
    ensures r != table ==> r[|table|] == '_'
  {
    table + NamePart(fk) + NamePart(ref)
  }

  /** The constraint name: the `:name` option verbatim when given (no length check);
      otherwise the derived name, cut to its first 64 characters when longer. */
  function ConstraintName(table: string, fk: Arg, ref: Arg, name: Option<string>): (r: string)
    ensures name.Some? ==> r == name.value
    ensures name.None? ==> r <= DerivedName(table, fk, ref)
    ensures name.None? ==>
      |r| == if |DerivedName(table, fk, ref)| <= MaxNameLength then |DerivedName(table, fk, ref)| else MaxNameLength
  {
    match name
    case Some(n) => n
    case None =>
      var full := DerivedName(table, fk, ref);
      if |full| > MaxNameLength then full[..MaxNameLength] else full
  }

  /** The words an argument contributes to a derived name: the String, the Array's
      elements (an empty Array still adds one empty word), or none. */
  function NameWords(a: Arg): (ws: seq<string>)
  {
    match a
    case Scalar(s) => [s]
    case Many(items) => if items == [] then [""] else items
    case Other(_) => []
  }

  /** Put as words: an argument adds nothing when it has no name words, otherwise
      `_` before all its words joined by `_`. */
  lemma NamePartIsJoin(a: Arg)
    ensures NameWords(a) == [] ==> NamePart(a) == ""
    ensures NameWords(a) != [] ==> NamePart(a) == "_" + Join(NameWords(a), "_")
  {
  }

  /** The derived name is the table name and every column word, joined by `_`. */
  lemma DerivedNameIsJoin(table: string, fk: Arg, ref: Arg)
    ensures DerivedName(table, fk, ref) == Join([table] + NameWords(fk) + NameWords(ref), "_")
  {
    NamePartIsJoin(fk);
    NamePartIsJoin(ref);
    JoinExtend([table], NameWords(fk), NamePart(fk));
    JoinExtend([table] + NameWords(fk), NameWords(ref), NamePart(ref));
  }

  /** Appending a `_`-prefixed join of a word list (or nothing, for an empty
      list) to a join of words is joining all the words. */
  lemma JoinExtend(front: seq<string>, words: seq<string>, part: string)
    requires |front| > 0
    requires words == [] ==> part == ""
    requires words != [] ==> part == "_" + Join(words, "_")
    ensures Join(front, "_") + part == Join(front + words, "_")
  {
    if words == [] {
      assert front + words == front;
    } else {
      JoinAppend(front, words, "_");
    }
  }

  /** For one column on each side the name is `table_fk_ref`, cut to 64 characters. */
  lemma SingleColumnName(table: string, fk: string, ref: string)
    ensures ConstraintName(table, Scalar(fk), Scalar(ref), None)
      == var full := table + "_" + fk + "_" + ref;
         if |full| <= MaxNameLength then full else full[..MaxNameLength]
  {
    var full := table + "_" + fk + "_" + ref;
    assert DerivedName(table, Scalar(fk), Scalar(ref)) == full;
  }

  // ---------------------------------------------------------------------------
  // Statement assembly
  // ---------------------------------------------------------------------------

  /** The column names a column list shows: one for a single argument, the elements
      of a non-empty Array, and one empty name for an empty Array (`[] `). */
  function Columns(a: Arg): (cs: seq<string>)
    ensures |cs| > 0
  {
    match a
    case Scalar(s) => [s]
    case Many(items) => if items == [] then [""] else items
    case Other(shown) => [shown]
  }

  /** The column list with its trailing space, `[a],[b] ` for an Array and `[a] `
      for anything else (shown through `to_s`): every column name in brackets,
      separated by `,`. */
  function ColumnList(a: Arg): (r: string)
    ensures r == Join(Bracketed(Columns(a)), ",") + " "
  {
    BracketJoin(Columns(a));
    match a
    case Many(items) => "[" + Join(items, "],[") + "] "
    case Scalar(s) => "[" + s + "] "
    case Other(shown) => "[" + shown + "] "
  }

  /** `ON UPDATE <action> `, present exactly when the option is set. */
  function OnUpdateClause(action: Option<string>): (r: string)
    ensures r == "" <==> action.None?
    ensures action.Some? ==> "ON UPDATE " <= r && r[10..] == action.value + " "
  {
    if action.Some? then "ON UPDATE " + action.value + " " else ""
  }

  /** `ON DELETE <action> `, present exactly when the option is set. */
  function OnDeleteClause(action: Option<string>): (r: string)
    ensures r == "" <==> action.None?
    ensures action.Some? ==> "ON DELETE " <= r && r[10..] == action.value + " "
  {
    if action.Some? then "ON DELETE " + action.value + " " else ""
  }

  /** The statement `add_foreign_key` runs: the constraint and its column lists,
      then the referential-action clauses, each only when set, ON UPDATE before
      ON DELETE; with neither, the statement ends with the reference list. */
  function AddQuery(table: string, name: string, fk: Arg, ref: Arg,
                    onUpdate: Option<string>, onDelete: Option<string>): (r: string)
    ensures onUpdate.None? && onDelete.None? ==> r == AddHead(table, name, fk, ref)
    ensures onUpdate.Some? && onDelete.None? ==>
      r == AddHead(table, name, fk, ref) + "ON UPDATE " + onUpdate.value + " "
    ensures onUpdate.None? && onDelete.Some? ==>
      r == AddHead(table, name, fk, ref) + "ON DELETE " + onDelete.value + " "
    ensures onUpdate.Some? && onDelete.Some? ==>
      r == AddHead(table, name, fk, ref) + "ON UPDATE " + onUpdate.value + " " + "ON DELETE " + onDelete.value + " "
  {
    ClauseCases(AddHead(table, name, fk, ref), onUpdate, onDelete);
    AddHead(table, name, fk, ref) + OnUpdateClause(onUpdate) + OnDeleteClause(onDelete)
  }

  /** `ALTER TABLE [t] ADD CONSTRAINT [n] FOREIGN KEY (<fk list>) REFERENCES <ref list>`,
      each list being its column names bracketed and separated by `,`, then a space. */
  function AddHead(table: string, name: string, fk: Arg, ref: Arg): (r: string)
    ensures r == "ALTER TABLE [" + table + "] " + "ADD CONSTRAINT [" + name + "] " + "FOREIGN KEY ("
                 + Join(Bracketed(Columns(fk)), ",") + " " + ") REFERENCES " + Join(Bracketed(Columns(ref)), ",") + " "
  {
    var front := "ALTER TABLE [" + table + "] " + "ADD CONSTRAINT [" + name + "] " + "FOREIGN KEY (";
    ListsSpelledOut(front, ColumnList(fk), Join(Bracketed(Columns(fk)), ","),
                    ") REFERENCES ", ColumnList(ref), Join(Bracketed(Columns(ref)), ","));
    front + ColumnList(fk) + ") REFERENCES " + ColumnList(ref)
  }

  lemma ListsSpelledOut(front: string, list1: string, names1: string, middle: string, list2: string, names2: string)
    requires list1 == names1 + " " && list2 == names2 + " "
    ensures front + list1 + middle + list2 == front + names1 + " " + middle + names2 + " "
  {
  }

  lemma ClauseCases(head: string, onUpdate: Option<string>, onDelete: Option<string>)
    ensures onUpdate.None? && onDelete.None? ==> head + OnUpdateClause(onUpdate) + OnDeleteClause(onDelete) == head
    ensures onUpdate.Some? && onDelete.None? ==>
      head + OnUpdateClause(onUpdate) + OnDeleteClause(onDelete) == head + "ON UPDATE " + onUpdate.value + " "
    ensures onUpdate.None? && onDelete.Some? ==>
      head + OnUpdateClause(onUpdate) + OnDeleteClause(onDelete) == head + "ON DELETE " + onDelete.value + " "
    ensures onUpdate.Some? && onDelete.Some? ==>
      head + OnUpdateClause(onUpdate) + OnDeleteClause(onDelete)
        == head + "ON UPDATE " + onUpdate.value + " " + "ON DELETE " + onDelete.value + " "
  {
    var u := OnUpdateClause(onUpdate);
    var d := OnDeleteClause(onDelete);
    if onUpdate.None? {
      assert head + u == head;
    }
    if onDelete.None? {
      assert head + u + d == head + u;
    }
  }

  /** Brackets of one column name. */
  function Bracketed(items: seq<string>): (r: seq<string>)
    ensures |r| == |items|
    ensures forall i :: 0 <= i < |items| ==> r[i] == "[" + items[i] + "]"
  {
    if items == [] then [] else ["[" + items[0] + "]"] + Bracketed(items[1..])
  }

  /** Joining with `],[` inside one pair of brackets is bracketing every column
      name and joining with `,`: `[a],[b],[c]`, no separator after the last. */
  lemma {:induction false} BracketJoin(items: seq<string>)
    requires |items| > 0
    ensures "[" + Join(items, "],[") + "]" == Join(Bracketed(items), ",")
  {
    if |items| > 1 {
      BracketJoin(items[1..]);
      assert Bracketed(items) == ["[" + items[0] + "]"] + Bracketed(items[1..]);
      JoinAppend(["[" + items[0] + "]"], Bracketed(items[1..]), ",");
      assert "[" + Join(items, "],[") + "]"
        == "[" + items[0] + "]" + "," + ("[" + Join(items[1..], "],[") + "]");
    }
  }

  /** The statement `remove_foreign_key` tries first (standard form): the table
      name after the 13 characters `ALTER TABLE [`, the constraint name last
      before the closing bracket, `] DROP CONSTRAINT [` between them. */
  function DropQuery(table: string, name: string): (r: string)
    ensures |r| == 33 + |table| + |name|
    ensures r[..13] == "ALTER TABLE [" && r[13..13 + |table|] == table
    ensures r[13 + |table|..|r| - |name| - 1] == "] DROP CONSTRAINT ["
    ensures r[|r| - |name| - 1..|r| - 1] == name && r[|r| - 1] == ']'
  {
    "ALTER TABLE [" + table + "] DROP CONSTRAINT [" + name + "]"
  }

  /** The one fallback statement (MySQL form), same table and name, with
      `] DROP FOREIGN KEY [` between them. */
  function DropFallbackQuery(table: string, name: string): (r: string)
    ensures |r| == 34 + |table| + |name|
    ensures r[..13] == "ALTER TABLE [" && r[13..13 + |table|] == table
    ensures r[13 + |table|..|r| - |name| - 1] == "] DROP FOREIGN KEY ["
    ensures r[|r| - |name| - 1..|r| - 1] == name && r[|r| - 1] == ']'
  {
    "ALTER TABLE [" + table + "] DROP FOREIGN KEY [" + name + "]"
  }

  /** The two DROP statements always differ, whatever the table and name. */
  lemma DropQueriesDiffer(table: string, name: string)
    ensures DropQuery(table, name) != DropFallbackQuery(table, name)
  {
    var k := |"ALTER TABLE ["| + |table| + |"] DROP "|;
    assert DropQuery(table, name)[k] == 'C';
    assert DropFallbackQuery(table, name)[k] == 'F';
  }

  // ---------------------------------------------------------------------------
  // Execution policy
  // ---------------------------------------------------------------------------

  /** A bare `rescue`: no error, a normal return; a StandardError goes to the
      reporting hook when there is one and is re-raised unchanged otherwise; any
      other error is not caught and propagates unchanged, hook or not. */
  function Rescue(failure: Option<DbError>, hasHook: bool): (o: Outcome)
    ensures o.Ok? <==> failure.None?
    ensures failure.Some? ==> o.err == failure.value
    ensures failure.Some? ==> (o.Reported? <==> hasHook && failure.value.standard)
  {
    match failure
    case None => Ok
    case Some(e) => if hasHook && e.standard then Reported(e) else Raised(e)
  }

  /** `add_foreign_key` after `prep_args`: derives the name, runs the one ADD
      statement and rescues its error. */
  method ExecuteAdd(table: string, fk: Arg, ref: Arg, options: Options, hasHook: bool, execute: Executor)
    returns (attempted: seq<string>, outcome: Outcome)
    ensures attempted == [AddQuery(table, ConstraintName(table, fk, ref, options.name), fk, ref,
                                   options.onUpdate, options.onDelete)]
    ensures outcome.Ok? <==> execute(attempted[0]).None?
    ensures execute(attempted[0]).Some? ==>
      var e := execute(attempted[0]).value;
      outcome == if hasHook && e.standard then Reported(e) else Raised(e)
  {
    var name := ConstraintName(table, fk, ref, options.name);
    var query := AddQuery(table, name, fk, ref, options.onUpdate, options.onDelete);
    attempted := [query];
    var failure := execute(query);
    outcome := Rescue(failure, hasHook);
  }

  /** `remove_foreign_key` after `prep_args`: the standard DROP first; only if it
      raises a StandardError, exactly one more statement, the fallback DROP with the
      same table and name; the error of the last statement run goes to the outer
      rescue. */
  method ExecuteRemove(table: string, fk: Arg, ref: Arg, options: Options, hasHook: bool, execute: Executor)
    returns (attempted: seq<string>, outcome: Outcome)
    ensures 1 <= |attempted| <= 2
    ensures attempted[0] == DropQuery(table, ConstraintName(table, fk, ref, options.name))
    ensures |attempted| == 2 <==> execute(attempted[0]).Some? && execute(attempted[0]).value.standard
    ensures |attempted| == 2 ==> attempted[1] == DropFallbackQuery(table, ConstraintName(table, fk, ref, options.name))
    ensures outcome.Ok? <==> execute(attempted[|attempted| - 1]).None?
    ensures execute(attempted[|attempted| - 1]).Some? ==>
      var e := execute(attempted[|attempted| - 1]).value;
      outcome == if hasHook && e.standard then Reported(e) else Raised(e)
  {
    var name := ConstraintName(table, fk, ref, options.name);
    var query := DropQuery(table, name);
    attempted := [query];
    var failure := execute(query);
    if failure.Some? && failure.value.standard {
      query := DropFallbackQuery(table, name);
      attempted := attempted + [query];
      failure := execute(query);
    }
    outcome := Rescue(failure, hasHook);
  }

  /** `add_foreign_key`: normalises the arguments (rewriting Array arguments in
      place), then builds and runs the ADD statement. */
  method AddForeignKey(table: Value, fk: RawArg, ref: RawArg, options: Options, hasHook: bool, execute: Executor)
    returns (attempted: seq<string>, outcome: Outcome)
    modifies Arrays(fk), Arrays(ref)
    ensures fk.List? ==> fk.elems[..] == Stringified(old(fk.elems[..]))
    ensures ref.List? ==> ref.elems[..] == Stringified(old(ref.elems[..]))
    ensures attempted == [AddQuery(ToS(table), ConstraintName(ToS(table), old(Prepared(fk)), old(Prepared(ref)), options.name),
                                   old(Prepared(fk)), old(Prepared(ref)), options.onUpdate, options.onDelete)]
    ensures outcome == Rescue(execute(attempted[0]), hasHook)
  {
    var t, f, r := PrepArgs(table, fk, ref);
    attempted, outcome := ExecuteAdd(t, f, r, options, hasHook, execute);
  }

  /** `remove_foreign_key`: normalises the arguments (rewriting Array arguments in
      place), then runs the standard DROP and, if it raises a StandardError, the
      fallback DROP. */
  method RemoveForeignKey(table: Value, fk: RawArg, ref: RawArg, options: Options, hasHook: bool, execute: Executor)
    returns (attempted: seq<string>, outcome: Outcome)
    modifies Arrays(fk), Arrays(ref)
    ensures fk.List? ==> fk.elems[..] == Stringified(old(fk.elems[..]))
    ensures ref.List? ==> ref.elems[..] == Stringified(old(ref.elems[..]))
    ensures var name := ConstraintName(ToS(table), old(Prepared(fk)), old(Prepared(ref)), options.name);
      var first := execute(DropQuery(ToS(table), name));
      attempted == if first.None? || !first.value.standard then [DropQuery(ToS(table), name)]
                   else [DropQuery(ToS(table), name), DropFallbackQuery(ToS(table), name)]
    ensures outcome == Rescue(execute(attempted[|attempted| - 1]), hasHook)
  {
    var t, f, r := PrepArgs(table, fk, ref);
    attempted, outcome := ExecuteRemove(t, f, r, options, hasHook, execute);
  }
}
