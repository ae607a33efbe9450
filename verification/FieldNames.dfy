/** The names that the repositories translate (back-end/src/types/user.ts, back-end/src/types/billing.ts), word by word:
    the field runs the words together with capitals, the column with underscores. */
module FieldNames {
  import opened CaseConversion

  type Name = seq<string>

  const USER_NAMES: seq<Name> := [
    ["id"], ["email"], ["full", "name"], ["phone"], ["age"], ["password", "hash"], ["refresh", "token"],
    ["google", "id"], ["email", "verified"], ["email", "verification", "token"], ["current", "product", "id"],
    ["created", "at"], ["updated", "at"]
  ]

  const BILLING_NAMES: seq<Name> := [
    ["id"], ["user", "id"], ["product", "id"], ["external", "subscription", "id"], ["external", "customer", "id"],
    ["status"], ["expires", "at"], ["created", "at"], ["updated", "at"]
  ]

  ghost predicate AllLower(s: string) { forall i :: 0 <= i < |s| ==> IsLower(s[i]) }

  /** A name is made of words of small letters a-z. */
  ghost predicate IsName(name: Name) { name != [] && AllWords(name) }

  ghost predicate AllWords(ws: seq<string>) { forall i :: 0 <= i < |ws| ==> ws[i] != "" && AllLower(ws[i]) }

  ghost function Capitalised(ws: seq<string>): string
    requires AllWords(ws)
  {
    if ws == [] then "" else [ToUpper(ws[0][0])] + ws[0][1..] + Capitalised(ws[1..])
  }

  ghost function Underscored(ws: seq<string>): string {
    if ws == [] then "" else "_" + ws[0] + Underscored(ws[1..])
  }

  ghost function Field(name: Name): string
    requires IsName(name)
  {
    name[0] + Capitalised(name[1..])
  }

  ghost function Column(name: Name): string
    requires IsName(name)
  {
    name[0] + Underscored(name[1..])
  }

  lemma {:induction false} SnakeOfLower(s: string, rest: string)
    requires AllLower(s)
    ensures ToSnakeCase(s + rest) == s + ToSnakeCase(rest)
  {
    hide ToSnakeCase;
    if s == "" {
      assert s + rest == rest;
      assert s + ToSnakeCase(rest) == ToSnakeCase(rest);
    } else {
      var c, tail := s[0], s[1..];
      assert IsLower(c) && AllLower(tail);
      SnakeOfLower(tail, rest);
      SnakeOf(c, tail + rest);
      assert s == [c] + tail;
      hide *;
      assert [c] + tail + rest == [c] + (tail + rest);
      assert [c] + tail + ToSnakeCase(rest) == [c] + (tail + ToSnakeCase(rest));
    }
  }

  lemma {:induction false} SnakeOfCapitalised(ws: seq<string>)
    requires AllWords(ws)
    ensures ToSnakeCase(Capitalised(ws)) == Underscored(ws)
  {
    if ws == [] {
    } else {
      var w, rest := ws[0], Capitalised(ws[1..]);
      SnakeOfCapitalised(ws[1..]);
      SnakeOfWord(w, rest);
      hide ToSnakeCase, AllLower;
    }
  }

  lemma SnakeOfWord(w: string, rest: string)
    requires w != "" && AllLower(w)
    ensures ToSnakeCase([ToUpper(w[0])] + w[1..] + rest) == "_" + w + ToSnakeCase(rest)
  {
    var c, tail := w[0], w[1..];
    assert IsLower(c) && AllLower(tail) && w == [c] + tail;
    LowerOfUpper(c);
    hide *;
    SnakeOf(ToUpper(c), tail + rest);
    SnakeOfLower(tail, rest);
    var snake := ToSnakeCase(rest);
    Associative([ToUpper(c)], tail, rest);
    calc {
      ToSnakeCase([ToUpper(c)] + tail + rest);
      ['_', c] + (tail + snake);
      { assert ['_', c] == "_" + [c]; Associative("_", [c], tail + snake); }
      "_" + ([c] + (tail + snake));
      { Associative([c], tail, snake); Associative("_", w, snake); }
      "_" + w + snake;
    }
  }

  lemma Associative(a: string, b: string, c: string)
    ensures a + b + c == a + (b + c)
  {
  }

  lemma LowerOfUpper(c: char)
    requires IsLower(c)
    ensures IsUpper(ToUpper(c)) && ToLower(ToUpper(c)) == c
  {
  }

  ghost predicate WithoutUnderscore(s: string) { forall i :: 0 <= i < |s| ==> s[i] != '_' }

  lemma {:induction false} CapitalisedWithoutUnderscore(ws: seq<string>)
    requires AllWords(ws)
    ensures WithoutUnderscore(Capitalised(ws))
  {
    if ws == [] {
    } else {
      CapitalisedWithoutUnderscore(ws[1..]);
    }
  }

  /** A field translates to its column and back. */
  lemma NameTranslates(name: Name)
    requires IsName(name)
    ensures ToSnakeCase(Field(name)) == Column(name) && ToCamelCase(Column(name)) == Field(name)
    ensures Humpless(Field(name)) && Capless(Column(name))
  {
    SnakeOfLower(name[0], Capitalised(name[1..]));
    SnakeOfCapitalised(name[1..]);
    CapitalisedWithoutUnderscore(name[1..]);
    CaseBijection(Field(name), Column(name));
  }

  ghost predicate AllNames(names: seq<Name>) { forall i :: 0 <= i < |names| ==> IsName(names[i]) }

  lemma UserWords()
    ensures AllLower("id") && AllLower("email") && AllLower("full") && AllLower("name") && AllLower("phone")
    ensures AllLower("age") && AllLower("password") && AllLower("hash") && AllLower("refresh") && AllLower("token")
    ensures AllLower("google") && AllLower("verified") && AllLower("verification")
    ensures AllLower("current") && AllLower("product") && AllLower("created") && AllLower("updated") && AllLower("at")
  {
  }

  lemma BillingWords()
    ensures AllLower("id") && AllLower("user") && AllLower("product") && AllLower("external")
              && AllLower("subscription")
    ensures AllLower("customer") && AllLower("status") && AllLower("expires")
    ensures AllLower("created") && AllLower("updated") && AllLower("at")
  {
  }

  /** The fields and columns of both tables are of this form. */
  lemma UsersAreNamed()
    ensures AllNames(USER_NAMES)
  {
    UserWords();
    hide AllLower;
  }

  lemma BillingsAreNamed()
    ensures AllNames(BILLING_NAMES)
  {
    BillingWords();
    hide AllLower;
  }

  ghost predicate IsField(names: seq<Name>, field: string)
    requires AllNames(names)
  {
    exists i :: 0 <= i < |names| && Field(names[i]) == field
  }

  ghost predicate IsColumn(names: seq<Name>, column: string)
    requires AllNames(names)
  {
    exists i :: 0 <= i < |names| && Column(names[i]) == column
  }

  lemma ColumnRead(names: seq<Name>, column: string)
    requires AllNames(names) && IsColumn(names, column)
    ensures Capless(column) && IsField(names, ToCamelCase(column))
  {
    var i :| 0 <= i < |names| && Column(names[i]) == column;
    NameTranslates(names[i]);
  }

  lemma FieldHumpless(names: seq<Name>, field: string)
    requires AllNames(names) && IsField(names, field)
    ensures Humpless(field)
  {
    var i :| 0 <= i < |names| && Field(names[i]) == field;
    NameTranslates(names[i]);
  }

  lemma ColumnsRead<V>(row: seq<(string, V)>)
    requires IsRecord(row) && forall c :: c in AsMap(row) ==> Capless(c)
    ensures forall k :: k in Rekey(row, ToCamelCase) ==> exists c :: c in AsMap(row) && ToCamelCase(c) == k
  {
    forall c | c in AsMap(row) ensures ToSnakeCase(ToCamelCase(c)) == c { SnakeOfCamel(c); }
    RekeyLossless(row, ToCamelCase, ToSnakeCase);
    hide ToCamelCase, ToSnakeCase;
  }

  /** An update of a table's row by field names, written and read back, gives the fields of the table with exactly the
      named ones replaced. */
  lemma TableUpdateFrame<V>(names: seq<Name>, row: seq<(string, V)>, updates: seq<(string, V)>, row': seq<(string, V)>)
    requires AllNames(names) && IsRecord(row) && IsRecord(updates) && IsRecord(row')
    requires forall c :: c in AsMap(row) ==> IsColumn(names, c)
    requires forall k :: k in AsMap(updates) ==> IsField(names, k)
    requires AsMap(row') == AsMap(row) + Rekey(updates, ToSnakeCase)
    ensures Rekey(row', ToCamelCase) == Rekey(row, ToCamelCase) + AsMap(updates)
    ensures forall k :: k in Rekey(row', ToCamelCase) ==> IsField(names, k)
  {
    hide *;
    forall c | c in AsMap(row) ensures Capless(c) && IsField(names, ToCamelCase(c)) { ColumnRead(names, c); }
    forall k | k in AsMap(updates) ensures Humpless(k) { FieldHumpless(names, k); }
    UpdateFrame(row, updates, row');
    ColumnsRead(row);
  }
}
