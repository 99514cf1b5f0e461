# foreign_key_migrations, modelled in Dafny

The `foreign_key_migrations` extension adds `add_foreign_key` and
`remove_foreign_key` to the schema-statement API of an ORM's migrations. Both
normalise their arguments (`prep_args`), derive a constraint name
(`get_constraint_name`), assemble an `ALTER TABLE` statement with
bracket-quoted identifiers and hand it to the host's `execute`. Removal first
tries the standard `DROP CONSTRAINT` form and, only if that raises a
StandardError, one MySQL `DROP FOREIGN KEY` fallback. Both methods end in a bare
`rescue`, which catches StandardErrors only. A StandardError goes to the host's
`puts_migration_error` hook when there is one and is re-raised unchanged
otherwise. Any other error (Interrupt, NoMemoryError, a ScriptError such as
NotImplementedError) is not caught: it propagates, hook or not.

Files:

- `wrappers.dfy` — `Option`, usable with `:-`.
- `text.dfy` — `Join` (Ruby's `Array#join`) and the two cuts the statement reader makes.
- `schema_statements.dfy` — the mixin itself:
  - Ruby arguments are `Value` (`Str`, `Sym`, or any other object with its `to_s`).
  - An Array argument is an `array<Value>` that `PrepArgs` rewrites in place, as `collect!` does.
  - The name and the statements are pure functions that give the exact text, trailing spaces included.
  - `ExecuteAdd` and `ExecuteRemove` run the statements against an `Executor`. This is a function from
    statement text to `None` (it ran) or `Some(error)` (it raised). An error records whether it
    is a StandardError. Each method returns the statements attempted and an `Outcome`: `Ok`,
    `Reported(err)` or `Raised(err)`, chosen by `hasHook` and the error's class.
  - `AddForeignKey` and `RemoveForeignKey` are `PrepArgs` followed by those methods.
- `statement_reader.dfy` — a reader that takes a generated statement apart again. It is the
  independent partner of the assembly functions. For identifiers without `]` and actions
  among the five documented keywords, the round-trip lemmas show three things:
  - the text keeps the table, the name, both column lists and both actions;
  - ON UPDATE comes before ON DELETE;
  - the two DROP forms cannot be confused.

  Outside that domain the text can be ambiguous, because nothing is escaped.
- `scenarios.dfy` — worked examples of names, and a client of the removal policy.

Where the documentation and the code differ, the model follows the code:

- `on_update` and `on_delete` are documented as one of five referential actions
  (CASCADE, RESTRICT, NO ACTION, SET NULL, SET DEFAULT). The code passes any text
  through, and so does `AddQuery`. The five keywords appear only as a
  precondition of the reader's round trip.
- A `foreign_key` or `references` argument that is neither a String, a Symbol nor
  an Array adds nothing to the derived name. It still appears in the ADD statement,
  through its `to_s`.
- An empty Array adds `_` to the derived name and `[] ` to the ADD statement.

## Model

| member | source | states |
|---|---|---|
| SchemaStatements.Normalized | lib/foreign_key_migrations.rb:91-92 | a Symbol argument becomes its String; a String stays itself; any other object is kept as it is |
| SchemaStatements.Stringified | lib/foreign_key_migrations.rb:93-94 | `collect!` with `to_s` keeps the length and order and puts each element's String in its place |
| SchemaStatements.Texts | lib/foreign_key_migrations.rb:93-94 | the Strings of an Array's elements, same length, same order |
| SchemaStatements.StringifiedIdempotent | lib/foreign_key_migrations.rb:93-94 | converting an Array a second time changes nothing, so one Array passed as both arguments ends up as if converted once |
| SchemaStatements.StringifyInPlace | lib/foreign_key_migrations.rb:93-94 | rewrites the caller's array in place; its new contents are the old elements' Strings, same length, same order |
| SchemaStatements.PrepArgs | lib/foreign_key_migrations.rb:89-96 | the table name becomes its String; each argument becomes its normalised form; each Array argument is rewritten in place, also when both arguments are the same Array |
| SchemaStatements.NamePart | lib/foreign_key_migrations.rb:103-106 | an argument adds nothing to the name exactly when it is neither a String nor an Array; otherwise what it adds starts with `_` |
| SchemaStatements.DerivedName | lib/foreign_key_migrations.rb:102-106 | the untruncated name starts with the table name (a copy extended in place) and is the table name alone exactly when neither argument is a String or an Array; anything added starts with `_` |
| SchemaStatements.ConstraintName | lib/foreign_key_migrations.rb:99-110 | with `:name` the name is that value verbatim (no length check); otherwise it is the prefix of the derived name of length min(64, its length), so at most 64 and unchanged when it fits |
| SchemaStatements.NamePartIsJoin | lib/foreign_key_migrations.rb:103-106 | what one argument adds to the name: nothing when it is neither String nor Array, otherwise `_` followed by its words joined by `_` |
| SchemaStatements.DerivedNameIsJoin | lib/foreign_key_migrations.rb:102-106 | the untruncated name is the table name, the foreign-key words and the reference words, all joined by `_`; an argument that is neither String nor Array adds no word |
| SchemaStatements.SingleColumnName | lib/foreign_key_migrations.rb:102-107 | for one column on each side the name is `table_fk_ref`, cut to its first 64 characters |
| SchemaStatements.ColumnList | lib/foreign_key_migrations.rb:28-38 | a column list is every column name of the argument in its own brackets, separated by `,`, then one space; a single argument or an empty Array gives one pair of brackets |
| SchemaStatements.OnUpdateClause | lib/foreign_key_migrations.rb:39 | the ON UPDATE clause is empty exactly when `on_update` is not set; otherwise it is `ON UPDATE `, the action verbatim and a space |
| SchemaStatements.OnDeleteClause | lib/foreign_key_migrations.rb:40 | the ON DELETE clause is empty exactly when `on_delete` is not set; otherwise it is `ON DELETE `, the action verbatim and a space |
| SchemaStatements.AddHead | lib/foreign_key_migrations.rb:24-38 | the statement up to the reference list: table and constraint name in brackets, then both column lists with every column bracketed and separated by `,`, each list followed by a space |
| SchemaStatements.AddQuery | lib/foreign_key_migrations.rb:24-40 | the ADD statement in each of the four option cases: the ON UPDATE clause only when `on_update` is set, the ON DELETE clause only when `on_delete` is set, ON UPDATE first, nothing after the reference list when neither is set |
| SchemaStatements.BracketJoin | lib/foreign_key_migrations.rb:28-32 | joining by `],[` inside one pair of brackets is bracketing every column and separating with `,`, with no separator after the last |
| SchemaStatements.DropQuery | lib/foreign_key_migrations.rb:71 | the standard DROP: `ALTER TABLE [`, the table name, `] DROP CONSTRAINT [`, the constraint name, `]`, each at its position |
| SchemaStatements.DropFallbackQuery | lib/foreign_key_migrations.rb:75 | the fallback DROP: the same table and name around `] DROP FOREIGN KEY [` |
| SchemaStatements.DropQueriesDiffer | lib/foreign_key_migrations.rb:71-75 | the fallback DROP is always a different statement from the standard one, for every table and name |
| SchemaStatements.Rescue | lib/foreign_key_migrations.rb:43-48 | a call without an error returns normally; a StandardError goes to the hook when there is one and is raised otherwise; an error of another class is raised even with a hook; either way it is the same error |
| SchemaStatements.ExecuteAdd | lib/foreign_key_migrations.rb:24-48 | runs exactly one statement, the ADD statement for the derived or given name; returns normally when it runs; otherwise reports a StandardError when there is a hook and re-raises every other case |
| SchemaStatements.ExecuteRemove | lib/foreign_key_migrations.rb:70-83 | always runs `DROP CONSTRAINT` first. A second statement runs if and only if the first raises a StandardError, and it is `DROP FOREIGN KEY` with the same table and name. The outcome depends on the last statement run: normal return if it ran, reported if it raised a StandardError and there is a hook, raised otherwise |
| SchemaStatements.AddForeignKey | lib/foreign_key_migrations.rb:16-49 | normalises the arguments in place, then runs the one ADD statement built from the normalised arguments and rescues its error |
| SchemaStatements.RemoveForeignKey | lib/foreign_key_migrations.rb:62-84 | normalises the arguments in place, then runs `DROP CONSTRAINT` and, only when it raises a StandardError, `DROP FOREIGN KEY`; the last error is rescued |
| StatementReader.ReadActionsOf | lib/foreign_key_migrations.rb:39-40 | for actions among the five documented keywords, the action clauses give back exactly the `on_update` and `on_delete` options, in that order, absent ones included |
| StatementReader.AddQueryRoundTrip | lib/foreign_key_migrations.rb:24-40 | the ADD statement gives back its table, constraint name, foreign-key columns, referenced columns and both actions, for identifiers without `]` and the documented actions |
| StatementReader.DropQueryRoundTrip | lib/foreign_key_migrations.rb:70-76 | for a table and name without `]`, each DROP statement gives back its own form with the same table and name |
| StatementReader.ConstraintNamePlain | lib/foreign_key_migrations.rb:99-110 | a derived name contains no `]` when the table and column names contain none |
| StatementReader.BracketsNotEscaped | lib/foreign_key_migrations.rb:28-32 | identifiers are not escaped: a two-column Array and a single name that contains `],[` give the same statement |
| Scenarios.OrdersName | lib/foreign_key_migrations.rb:99-110 | `orders`, `customer_id`, `id` give the name `orders_customer_id_id` |
| Scenarios.LineItemsName | lib/foreign_key_migrations.rb:102-106 | Array arguments give `line_items_order_id_sku_id_sku` |

## Left out

- The database behind `execute` (lines 42, 73, 76) is an `Executor`, a function of the statement text. Nothing is lost by this. Each call runs each statement at most once, and the two DROP statements always differ (`DropQueriesDiffer`), so every combination of answers can be expressed.
- The body of `puts_migration_error` and the `respond_to?` probe are a boolean `hasHook`. An error is a `DbError` whose only structure is its message and whether it is a StandardError, which is all a bare `rescue` looks at. A hook that itself raises is not modelled.
- Errors raised before `execute` are not modelled, although the rescue also covers them. Examples are `collect!` on a frozen Array and a `to_s` that raises.
- Ruby's `to_s` is not computed: a `Value` carries the text its `to_s` gives, and `ToS` only reads it back.
- Strings are sequences of Unicode characters. The 64-character cut (line 107) and the length test agree with Ruby for UTF-8 names. Ruby would cut a name in a single-byte or binary encoding at 64 bytes; encodings are not modelled.
- `nil` is an `Obj` whose text is empty.
- The `:name`, `:on_update` and `:on_delete` options are modelled as Strings only. A Symbol or other object there would be interpolated through its `to_s`.
- Whether a statement is valid SQL for a given database is not modelled, and neither is what the referential actions mean. The code validates nothing and escapes nothing.
- StatementReader.DropQueryRoundTrip: requires a table and name without `]`. The source accepts any text, and a `]` makes the two forms collide. For example, the standard DROP for table `a] DROP FOREIGN KEY [b` and name `c` is the same text as the fallback DROP for table `a` and name `b] DROP CONSTRAINT [c`.
- StatementReader.ReadActionsOf: requires actions among the five documented keywords. The source interpolates any text, so an ON UPDATE action `CASCADE ON DELETE CASCADE` gives the same text as ON UPDATE CASCADE followed by ON DELETE CASCADE.
- StatementReader.AddQueryRoundTrip: requires identifiers without `]` and actions among the five documented keywords. The source accepts any text. `BracketsNotEscaped` shows that without the first requirement the text can be ambiguous.
- The Rails module nesting and mixin mechanics (lines 1-3) are framework plumbing.
