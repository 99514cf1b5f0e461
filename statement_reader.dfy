/** A reader for the statements the mixin generates. It is the partner of the
    assembly functions: for identifiers without a closing bracket and actions among
    the five referential-action keywords, reading a generated statement gives back
    the table, the constraint name, the column lists and the actions it was built
    from; so the text loses nothing and puts ON UPDATE before ON DELETE. */
module StatementReader {
  import opened Wrappers
  import opened Text
  import opened SchemaStatements

  /** The parts of an ADD CONSTRAINT ... FOREIGN KEY statement. */
  datatype AddStatement = AddStatement(table: string, name: string, columns: seq<string>,
                                       referenced: seq<string>, onUpdate: Option<string>,
                                       onDelete: Option<string>)

  /** The two DROP forms: the standard one and the MySQL fallback. */
  datatype DropStatement = DropConstraint(table: string, name: string) | DropForeignKey(table: string, name: string)

  /** The referential actions the option documentation lists. */
  const ReferentialActions: seq<string> := ["CASCADE", "RESTRICT", "NO ACTION", "SET NULL", "SET DEFAULT"]

  /** An identifier the bracket quoting keeps apart: it has no `]` (nothing is escaped). */
  predicate Plain(s: string)
  {
    ']' !in s
  }

  predicate PlainArg(a: Arg)
  {
    match a
    case Scalar(s) => Plain(s)
    case Many(items) => forall i :: 0 <= i < |items| ==> Plain(items[i])
    case Other(shown) => Plain(shown)
  }

  predicate KnownAction(a: Option<string>)
  {
    a.None? || a.value in ReferentialActions
  }

  /** Column names as a column list shows them: joined by `],[` inside one pair
      of brackets, followed by a space. */
  function ListText(names: seq<string>): string
  {
    "[" + Join(names, "],[") + "] "
  }

  /** Every column list shows the argument's column names. */
  lemma ColumnListOfColumns(a: Arg)
    ensures ColumnList(a) == ListText(Columns(a))
  {
  }

  /** Reads `[x1],[x2],...,[xn] ` from the front of `s`: the names and the rest. */
  function ReadList(s: string): (r: Option<(seq<string>, string)>)
    ensures r.Some? ==> |r.value.1| < |s|
    decreases |s|
  {
    var afterOpen :- StripPrefix("[", s);
    var cut :- SplitAt(']', afterOpen);
    if |cut.1| > 0 && cut.1[0] == ',' then
      var more :- ReadList(cut.1[1..]);
      Some(([cut.0] + more.0, more.1))
    else if |cut.1| > 0 && cut.1[0] == ' ' then
      Some(([cut.0], cut.1[1..]))
    else
      None
  }

  lemma ReadListOf(items: seq<string>, rest: string)
    requires |items| > 0
    requires forall i :: 0 <= i < |items| ==> Plain(items[i])
    ensures ReadList(ListText(items) + rest) == Some((items, rest))
  {
    ListTextIsOpened(items, rest);
    ReadOpenedList(items, rest);
  }

  /** A list after its opening bracket, followed by `rest`, nested the way the
      reader takes it apart: `x1],[x2],...,[xn] rest`. */
  function Opened(items: seq<string>, rest: string): string
    requires |items| > 0
  {
    if |items| == 1 then items[0] + [']'] + (" " + rest)
    else items[0] + [']'] + ("," + ("[" + Opened(items[1..], rest)))
  }

  lemma {:induction false} ReadOpenedList(items: seq<string>, rest: string)
    requires |items| > 0
    requires forall i :: 0 <= i < |items| ==> Plain(items[i])
    ensures ReadList("[" + Opened(items, rest)) == Some((items, rest))
  {
    if |items| == 1 {
      ReadListLast(items[0], rest);
      assert items == [items[0]];
    } else {
      ReadOpenedList(items[1..], rest);
      ReadOpenedCons(items, rest);
    }
  }

  lemma ReadOpenedCons(items: seq<string>, rest: string)
    requires |items| > 1 && Plain(items[0])
    requires ReadList("[" + Opened(items[1..], rest)) == Some((items[1..], rest))
    ensures ReadList("[" + Opened(items, rest)) == Some((items, rest))
  {
    var more := "[" + Opened(items[1..], rest);
    ReadListNext(items[0], more, items[1..], rest);
    assert [items[0]] + items[1..] == items;
    assert Opened(items, rest) == items[0] + [']'] + ("," + more);
  }

  lemma {:induction false} ListTextIsOpened(items: seq<string>, rest: string)
    requires |items| > 0
    ensures ListText(items) + rest == "[" + Opened(items, rest)
  {
    if |items| == 1 {
      ListTextLast(items[0], rest);
      assert items == [items[0]];
    } else {
      ListTextIsOpened(items[1..], rest);
      ListTextNext(items, rest);
    }
  }

  lemma ListTextLast(item: string, rest: string)
    ensures ListText([item]) + rest == "[" + (item + [']'] + (" " + rest))
  {
    assert Join([item], "],[") == item;
  }

  lemma RegroupNext(first: string, others: string, rest: string)
    ensures "[" + (first + "],[" + others) + "] " + rest
         == "[" + (first + [']'] + ("," + ("[" + others + "] " + rest)))
  {
  }

  lemma ListTextNext(items: seq<string>, rest: string)
    requires |items| > 1
    ensures ListText(items) + rest == "[" + (items[0] + [']'] + ("," + (ListText(items[1..]) + rest)))
  {
    assert Join(items, "],[") == items[0] + "],[" + Join(items[1..], "],[");
    RegroupNext(items[0], Join(items[1..], "],["), rest);
  }

  /** The last name of a list: `[x] ` and the rest. */
  lemma ReadListLast(item: string, rest: string)
    requires Plain(item)
    ensures ReadList("[" + (item + [']'] + (" " + rest))) == Some(([item], rest))
  {
    StripPrefixOf("[", item + [']'] + (" " + rest));
    SplitAtOf(']', item, " " + rest);
    assert (" " + rest)[0] == ' ' && (" " + rest)[1..] == rest;
  }

  /** A name followed by `,`: the list goes on after it. */
  lemma ReadListNext(item: string, more: string, others: seq<string>, rest: string)
    requires Plain(item)
    requires ReadList(more) == Some((others, rest))
    ensures ReadList("[" + (item + [']'] + ("," + more))) == Some(([item] + others, rest))
  {
    StripPrefixOf("[", item + [']'] + ("," + more));
    SplitAtOf(']', item, "," + more);
    assert ("," + more)[0] == ',' && ("," + more)[1..] == more;
  }

  /** Reads a referential-action keyword and the space after it, trying the keywords in order. */
  function ReadActionFrom(keywords: seq<string>, s: string): Option<(string, string)>
  {
    if keywords == [] then None
    else if keywords[0] + " " <= s then Some((keywords[0], s[|keywords[0]| + 1..]))
    else ReadActionFrom(keywords[1..], s)
  }

  function ReadAction(s: string): Option<(string, string)>
  {
    ReadActionFrom(ReferentialActions, s)
  }

  /** The keyword found is the first one in the list that starts the text. */
  lemma {:induction false} ReadActionFromAt(keywords: seq<string>, i: nat, s: string)
    requires i < |keywords|
    requires keywords[i] + " " <= s
    requires forall j :: 0 <= j < i ==> !(keywords[j] + " " <= s)
    ensures ReadActionFrom(keywords, s) == Some((keywords[i], s[|keywords[i]| + 1..]))
  {
    if i > 0 {
      assert !(keywords[0] + " " <= s);
      ReadActionFromAt(keywords[1..], i - 1, s);
    }
  }

  /** No keyword is cut short by another: each one followed by a space reads back as itself. */
  lemma ReadActionOf(action: string, rest: string)
    requires action in ReferentialActions
    ensures ReadAction(action + " " + rest) == Some((action, rest))
  {
    var s := action + " " + rest;
    var ks := ReferentialActions;
    assert s[|action| + 1..] == rest;
    assert s[..|action| + 1] == action + " ";
    var i :| 0 <= i < |ks| && ks[i] == action;
    assert s[0] == action[0];
    if i == 4 {
      assert s[4] == 'D';
    }
    ReadActionFromAt(ks, i, s);
  }

  /** Reads an optional `ON DELETE <action> ` that ends the statement. */
  function ReadDeleteClause(s: string): Option<Option<string>>
  {
    if s == [] then Some(None)
    else
      var afterKeyword :- StripPrefix("ON DELETE ", s);
      var action :- ReadAction(afterKeyword);
      if action.1 == [] then Some(Some(action.0)) else None
  }

  /** Reads the optional `ON UPDATE <action> ` and `ON DELETE <action> ` clauses, in that order. */
  function ReadActions(s: string): Option<(Option<string>, Option<string>)>
  {
    match StripPrefix("ON UPDATE ", s)
    case Some(afterKeyword) =>
      var action :- ReadAction(afterKeyword);
      var onDelete :- ReadDeleteClause(action.1);
      Some((Some(action.0), onDelete))
    case None =>
      var onDelete :- ReadDeleteClause(s);
      Some((None, onDelete))
  }

  lemma ReadDeleteClauseOf(onDelete: Option<string>)
    requires KnownAction(onDelete)
    ensures ReadDeleteClause(OnDeleteClause(onDelete)) == Some(onDelete)
  {
    if onDelete.Some? {
      StripPrefixOf("ON DELETE ", onDelete.value + " ");
      assert OnDeleteClause(onDelete) == "ON DELETE " + (onDelete.value + " ");
      ReadActionOf(onDelete.value, "");
      assert onDelete.value + " " + "" == onDelete.value + " ";
    }
  }

  /** The action clauses read back as the options they came from. */
  lemma ReadActionsOf(onUpdate: Option<string>, onDelete: Option<string>)
    requires KnownAction(onUpdate) && KnownAction(onDelete)
    ensures ReadActions(OnUpdateClause(onUpdate) + OnDeleteClause(onDelete)) == Some((onUpdate, onDelete))
  {
    ReadDeleteClauseOf(onDelete);
    if onUpdate.Some? {
      ReadUpdateClauseOf(onUpdate.value, onDelete);
    } else {
      assert OnUpdateClause(onUpdate) + OnDeleteClause(onDelete) == OnDeleteClause(onDelete);
      NoUpdateClause(onDelete);
    }
  }

  lemma ReadUpdateClauseOf(onUpdate: string, onDelete: Option<string>)
    requires onUpdate in ReferentialActions && KnownAction(onDelete)
    ensures ReadActions(OnUpdateClause(Some(onUpdate)) + OnDeleteClause(onDelete)) == Some((Some(onUpdate), onDelete))
  {
    var deleteClause := OnDeleteClause(onDelete);
    ReadDeleteClauseOf(onDelete);
    UpdateClauseShape(onUpdate, deleteClause);
    ReadActionOf(onUpdate, deleteClause);
    ReadActionsAfterUpdate(onUpdate + " " + deleteClause);
  }

  lemma UpdateClauseShape(action: string, rest: string)
    ensures OnUpdateClause(Some(action)) + rest == "ON UPDATE " + (action + " " + rest)
  {
  }

  lemma ReadActionsAfterUpdate(rest: string)
    requires ReadAction(rest).Some? && ReadDeleteClause(ReadAction(rest).value.1).Some?
    ensures ReadActions("ON UPDATE " + rest)
         == Some((Some(ReadAction(rest).value.0), ReadDeleteClause(ReadAction(rest).value.1).value))
  {
    StripPrefixOf("ON UPDATE ", rest);
  }

  /** A text holding at most an ON DELETE clause does not start with ON UPDATE. */
  lemma NoUpdateClause(onDelete: Option<string>)
    ensures StripPrefix("ON UPDATE ", OnDeleteClause(onDelete)) == None
  {
    if onDelete.Some? {
      assert OnDeleteClause(onDelete)[3] == 'D';
    }
  }

  /** Reads an ADD CONSTRAINT ... FOREIGN KEY statement back into its parts. */
  function ReadAdd(q: string): Option<AddStatement>
  {
    var r1 :- StripPrefix("ALTER TABLE [", q);
    var table :- SplitAt(']', r1);
    var r3 :- StripPrefix(" ADD CONSTRAINT [", table.1);
    var name :- SplitAt(']', r3);
    var key :- ReadForeignKey(name.1);
    Some(AddStatement(table.0, name.0, key.0, key.1, key.2, key.3))
  }

  /** Reads ` FOREIGN KEY (<list>) REFERENCES <list><actions>`. */
  function ReadForeignKey(s: string): Option<(seq<string>, seq<string>, Option<string>, Option<string>)>
  {
    var r5 :- StripPrefix(" FOREIGN KEY (", s);
    var columns :- ReadList(r5);
    var r7 :- StripPrefix(") REFERENCES ", columns.1);
    var referenced :- ReadList(r7);
    var actions :- ReadActions(referenced.1);
    Some((columns.0, referenced.0, actions.0, actions.1))
  }

  /** Reads either DROP statement back into its form, table and name. */
  function ReadDrop(q: string): Option<DropStatement>
  {
    var r1 :- StripPrefix("ALTER TABLE [", q);
    var table :- SplitAt(']', r1);
    var form :- ReadDropForm(table.1);
    var name :- ReadName(form.1);
    Some(if form.0 then DropConstraint(table.0, name) else DropForeignKey(table.0, name))
  }

  /** Reads ` DROP CONSTRAINT [` (true) or ` DROP FOREIGN KEY [` (false). */
  function ReadDropForm(s: string): Option<(bool, string)>
  {
    match StripPrefix(" DROP CONSTRAINT [", s)
    case Some(rest) => Some((true, rest))
    case None =>
      var rest :- StripPrefix(" DROP FOREIGN KEY [", s);
      Some((false, rest))
  }

  /** Reads `name]` that ends a statement. */
  function ReadName(s: string): Option<string>
  {
    var cut :- SplitAt(']', s);
    if cut.1 == [] then Some(cut.0) else None
  }

  lemma ReadForeignKeyOf(columns: seq<string>, referenced: seq<string>, tail: string)
    requires |columns| > 0 && forall i :: 0 <= i < |columns| ==> Plain(columns[i])
    requires |referenced| > 0 && forall i :: 0 <= i < |referenced| ==> Plain(referenced[i])
    requires ReadActions(tail).Some?
    ensures ReadForeignKey(" FOREIGN KEY (" + (ListText(columns) + (") REFERENCES " + (ListText(referenced) + tail))))
      == Some((columns, referenced, ReadActions(tail).value.0, ReadActions(tail).value.1))
  {
    var r7 := ListText(referenced) + tail;
    var r6 := ") REFERENCES " + r7;
    var r5 := ListText(columns) + r6;
    StripPrefixOf(" FOREIGN KEY (", r5);
    ReadListOf(columns, r6);
    StripPrefixOf(") REFERENCES ", r7);
    ReadListOf(referenced, tail);
  }

  /** The ADD statement regrouped as the reader takes it apart, front to back. */
  lemma AddTextShape(table: string, name: string, columns: string, referenced: string,
                     update: string, delete: string)
    ensures "ALTER TABLE [" + table + "] " + "ADD CONSTRAINT [" + name + "] " + "FOREIGN KEY ("
              + columns + ") REFERENCES " + referenced + update + delete
         == "ALTER TABLE [" + (table + [']'] + (" ADD CONSTRAINT [" + (name + [']']
              + (" FOREIGN KEY (" + (columns + (") REFERENCES " + (referenced + (update + delete))))))))
  {
    var head := "ALTER TABLE [" + table + "] " + "ADD CONSTRAINT [" + name + "] " + "FOREIGN KEY ("
                + columns + ") REFERENCES " + referenced;
    assert head + update + delete == head + (update + delete);
    HeadShape(table, name, columns, referenced, update + delete);
  }

  lemma HeadShape(table: string, name: string, columns: string, referenced: string, tail: string)
    ensures "ALTER TABLE [" + table + "] " + "ADD CONSTRAINT [" + name + "] " + "FOREIGN KEY ("
              + columns + ") REFERENCES " + referenced + tail
         == "ALTER TABLE [" + (table + [']'] + (" ADD CONSTRAINT [" + (name + [']']
              + (" FOREIGN KEY (" + (columns + (") REFERENCES " + (referenced + tail)))))))
  {
    assert "] " + "ADD CONSTRAINT [" == [']'] + " ADD CONSTRAINT [";
    assert "] " + "FOREIGN KEY (" == [']'] + " FOREIGN KEY (";
    Regroup("ALTER TABLE [", table, "] ", "ADD CONSTRAINT [", " ADD CONSTRAINT [", name,
            "] ", "FOREIGN KEY (", " FOREIGN KEY (", columns, ") REFERENCES ", referenced, tail);
  }

  lemma Regroup(a: string, t: string, b1: string, b2: string, b: string, n: string,
                c1: string, c2: string, c: string, cols: string, d: string, refs: string, tail: string)
    requires b1 + b2 == [']'] + b && c1 + c2 == [']'] + c
    ensures a + t + b1 + b2 + n + c1 + c2 + cols + d + refs + tail
         == a + (t + [']'] + (b + (n + [']'] + (c + (cols + (d + (refs + tail)))))))
  {
    calc {
      a + t + b1 + b2 + n + c1 + c2 + cols + d + refs + tail;
      a + (t + (b1 + b2) + (n + (c1 + c2) + (cols + (d + (refs + tail)))));
      a + (t + ([']'] + b) + (n + ([']'] + c) + (cols + (d + (refs + tail)))));
      a + (t + [']'] + (b + (n + [']'] + (c + (cols + (d + (refs + tail)))))));
    }
  }

  /** The ADD statement reads back as the table, name, column lists and actions
      it was assembled from. */
  lemma AddQueryRoundTrip(table: string, name: string, fk: Arg, ref: Arg,
                          onUpdate: Option<string>, onDelete: Option<string>)
    requires Plain(table) && Plain(name) && PlainArg(fk) && PlainArg(ref)
    requires KnownAction(onUpdate) && KnownAction(onDelete)
    ensures ReadAdd(AddQuery(table, name, fk, ref, onUpdate, onDelete))
      == Some(AddStatement(table, name, Columns(fk), Columns(ref), onUpdate, onDelete))
  {
    AddQueryText(table, name, fk, ref, onUpdate, onDelete);
    ReadForeignKeyOfArgs(fk, ref, onUpdate, onDelete);
    ReadAddOf(table, name, ForeignKeyText(fk, ref, onUpdate, onDelete));
  }

  /** What follows the constraint name in the ADD statement. */
  function ForeignKeyText(fk: Arg, ref: Arg, onUpdate: Option<string>, onDelete: Option<string>): string
  {
    " FOREIGN KEY (" + (ColumnList(fk) + (") REFERENCES " + (ColumnList(ref) + (OnUpdateClause(onUpdate) + OnDeleteClause(onDelete)))))
  }

  lemma AddQueryText(table: string, name: string, fk: Arg, ref: Arg,
                     onUpdate: Option<string>, onDelete: Option<string>)
    ensures AddQuery(table, name, fk, ref, onUpdate, onDelete)
         == "ALTER TABLE [" + (table + [']'] + (" ADD CONSTRAINT [" + (name + [']'] + ForeignKeyText(fk, ref, onUpdate, onDelete))))
  {
    AddTextShape(table, name, ColumnList(fk), ColumnList(ref), OnUpdateClause(onUpdate), OnDeleteClause(onDelete));
  }

  lemma ReadForeignKeyOfArgs(fk: Arg, ref: Arg, onUpdate: Option<string>, onDelete: Option<string>)
    requires PlainArg(fk) && PlainArg(ref) && KnownAction(onUpdate) && KnownAction(onDelete)
    ensures ReadForeignKey(ForeignKeyText(fk, ref, onUpdate, onDelete)) == Some((Columns(fk), Columns(ref), onUpdate, onDelete))
  {
    ColumnListOfColumns(fk);
    ColumnListOfColumns(ref);
    ReadActionsOf(onUpdate, onDelete);
    ReadForeignKeyOf(Columns(fk), Columns(ref), OnUpdateClause(onUpdate) + OnDeleteClause(onDelete));
  }

  /** The reader's first four cuts, for any text after the constraint name. */
  lemma ReadAddOf(table: string, name: string, rest: string)
    requires Plain(table) && Plain(name) && ReadForeignKey(rest).Some?
    ensures var key := ReadForeignKey(rest).value;
      ReadAdd("ALTER TABLE [" + (table + [']'] + (" ADD CONSTRAINT [" + (name + [']'] + rest))))
        == Some(AddStatement(table, name, key.0, key.1, key.2, key.3))
  {
    var r3 := name + [']'] + rest;
    var r2 := " ADD CONSTRAINT [" + r3;
    var r1 := table + [']'] + r2;
    StripPrefixOf("ALTER TABLE [", r1);
    SplitAtOf(']', table, r2);
    StripPrefixOf(" ADD CONSTRAINT [", r3);
    SplitAtOf(']', name, rest);
  }

  /** Each DROP statement reads back as its own form with the table and name it
      was built from. */
  lemma DropQueryRoundTrip(table: string, name: string)
    requires Plain(table) && Plain(name)
    ensures ReadDrop(DropQuery(table, name)) == Some(DropConstraint(table, name))
    ensures ReadDrop(DropFallbackQuery(table, name)) == Some(DropForeignKey(table, name))
  {
    ReadDropConstraintOf(table, name);
    ReadDropForeignKeyOf(table, name);
  }

  lemma ReadDropConstraintOf(table: string, name: string)
    requires Plain(table) && Plain(name)
    ensures ReadDrop(DropQuery(table, name)) == Some(DropConstraint(table, name))
  {
    var form := " DROP CONSTRAINT [";
    assert DropQuery(table, name) == "ALTER TABLE [" + (table + [']'] + (form + (name + [']']))) by {
      ConstraintSeparator();
      DropShape(table, form, name);
    }
    StripPrefixOf(form, name + [']']);
    assert ReadDropForm(form + (name + [']'])) == Some((true, name + [']']));
    ReadNameOf(name);
    ReadDropOf(table, form, name + [']']);
  }

  lemma ReadDropForeignKeyOf(table: string, name: string)
    requires Plain(table) && Plain(name)
    ensures ReadDrop(DropFallbackQuery(table, name)) == Some(DropForeignKey(table, name))
  {
    var form := " DROP FOREIGN KEY [";
    assert DropFallbackQuery(table, name) == "ALTER TABLE [" + (table + [']'] + (form + (name + [']']))) by {
      FallbackSeparator();
      DropShape(table, form, name);
    }
    NotStandardForm(name + [']']);
    StripPrefixOf(form, name + [']']);
    assert ReadDropForm(form + (name + [']'])) == Some((false, name + [']']));
    ReadNameOf(name);
    ReadDropOf(table, form, name + [']']);
  }

  lemma NotStandardForm(rest: string)
    ensures StripPrefix(" DROP CONSTRAINT [", " DROP FOREIGN KEY [" + rest) == None
  {
    var s := " DROP FOREIGN KEY [" + rest;
    assert s[6] == 'F';
  }

  /** A DROP statement regrouped as the reader takes it apart. */
  lemma ConstraintSeparator()
    ensures "] DROP CONSTRAINT [" == "]" + " DROP CONSTRAINT ["
  {
  }

  lemma FallbackSeparator()
    ensures "] DROP FOREIGN KEY [" == "]" + " DROP FOREIGN KEY ["
  {
  }

  lemma DropShape(table: string, form: string, name: string)
    ensures "ALTER TABLE [" + table + ("]" + form) + name + "]"
         == "ALTER TABLE [" + (table + [']'] + (form + (name + [']'])))
  {
  }

  lemma ReadDropOf(table: string, form: string, rest: string)
    requires Plain(table)
    requires ReadDropForm(form + rest).Some? && ReadName(ReadDropForm(form + rest).value.1).Some?
    ensures ReadDrop("ALTER TABLE [" + (table + [']'] + (form + rest)))
      == var f := ReadDropForm(form + rest).value;
         var n := ReadName(f.1).value;
         Some(if f.0 then DropConstraint(table, n) else DropForeignKey(table, n))
  {
    StripPrefixOf("ALTER TABLE [", table + [']'] + (form + rest));
    SplitAtOf(']', table, form + rest);
  }

  lemma ReadNameOf(name: string)
    requires Plain(name)
    ensures ReadName(name + [']']) == Some(name)
  {
    SplitAtOf(']', name, []);
    assert name + [']'] + [] == name + [']'];
  }

  /** A derived constraint name keeps identifiers plain: it is a prefix of plain
      words joined by `_`. */
  lemma ConstraintNamePlain(table: string, fk: Arg, ref: Arg, name: Option<string>)
    requires Plain(table) && PlainArg(fk) && PlainArg(ref)
    requires name.Some? ==> Plain(name.value)
    ensures Plain(ConstraintName(table, fk, ref, name))
  {
    if name.None? {
      DerivedNameIsJoin(table, fk, ref);
      WordsPlain(table, fk, ref);
      JoinAvoids([table] + NameWords(fk) + NameWords(ref), "_", ']');
      PrefixAvoids(']', ConstraintName(table, fk, ref, name), DerivedName(table, fk, ref));
    }
  }

  /** No name word of plain arguments holds a closing bracket. */
  lemma WordsPlain(table: string, fk: Arg, ref: Arg)
    requires Plain(table) && PlainArg(fk) && PlainArg(ref)
    ensures var words := [table] + NameWords(fk) + NameWords(ref);
      forall i :: 0 <= i < |words| ==> ']' !in words[i]
  {
    var front := NameWords(fk);
    var back := NameWords(ref);
    ArgWordsPlain(fk);
    ArgWordsPlain(ref);
    var words := [table] + front + back;
    forall i | 0 <= i < |words|
      ensures ']' !in words[i]
    {
      if i == 0 {
        assert words[i] == table;
      } else if i <= |front| {
        assert words[i] == front[i - 1];
      } else {
        assert words[i] == back[i - 1 - |front|];
      }
    }
  }

  lemma ArgWordsPlain(a: Arg)
    requires PlainArg(a)
    ensures forall i :: 0 <= i < |NameWords(a)| ==> ']' !in NameWords(a)[i]
  {
  }

  /** A prefix of a text avoids every character the text avoids. */
  lemma PrefixAvoids(c: char, p: string, s: string)
    requires p <= s && c !in s
    ensures c !in p
  {
    forall k | 0 <= k < |p|
      ensures p[k] != c
    {
      assert p[k] == s[k];
    }
  }

  /** The brackets are not escaped: a `]` inside a name makes two different
      column lists produce the same statement, so the plain-identifier
      requirement above cannot be dropped. */
  lemma BracketsNotEscaped(table: string, name: string, ref: Arg)
    ensures AddQuery(table, name, Many(["a", "b"]), ref, None, None)
         == AddQuery(table, name, Scalar("a],[b"), ref, None, None)
  {
    assert Join(["a", "b"], "],[") == "a],[b";
    assert ColumnList(Many(["a", "b"])) == ColumnList(Scalar("a],[b"));
  }
}
