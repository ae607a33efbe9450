/** The key translation between camelCase objects and snake_case columns
    (back-end/src/utils/case-conversion.ts), and what it does to whole records. */
module CaseConversion {

  predicate IsUpper(c: char) { 'A' <= c <= 'Z' }

  predicate IsLower(c: char) { 'a' <= c <= 'z' }

  function ToLower(c: char): (r: char)
    requires IsUpper(c)
    ensures IsLower(r)
  {
    (c as int + 32) as char
  }

  function ToUpper(c: char): (r: char)
    requires IsLower(c)
    ensures IsUpper(r)
  {
    (c as int - 32) as char
  }

  /** Replaces each capital A-Z by an underscore and its small letter. */
  function ToSnakeCase(s: string): string {
    if s == "" then ""
    else if IsUpper(s[0]) then ['_', ToLower(s[0])] + ToSnakeCase(s[1..])
    else [s[0]] + ToSnakeCase(s[1..])
  }

  /** Replaces, from the left, each underscore that a small letter a-z follows, and that letter, by the capital. */
  function ToCamelCase(s: string): string {
    if s == "" then ""
    else if HumpAt(s, 0) then [ToUpper(s[1])] + ToCamelCase(s[2..])
    else [s[0]] + ToCamelCase(s[1..])
  }

  predicate HumpAt(s: string, i: nat) {
    i + 1 < |s| && s[i] == '_' && IsLower(s[i + 1])
  }

  /** No underscore is followed by a small letter. */
  ghost predicate Humpless(s: string) {
    forall i: nat :: !HumpAt(s, i)
  }

  /** No capital letter A-Z. */
  ghost predicate Capless(s: string) {
    forall i :: 0 <= i < |s| ==> !IsUpper(s[i])
  }

  lemma HumplessSplit(s: string)
    requires s != ""
    ensures Humpless(s) <==> !HumpAt(s, 0) && Humpless(s[1..])
  {
    if Humpless(s) {
      forall i: nat ensures !HumpAt(s[1..], i) {
        assert !HumpAt(s, i + 1);
      }
    }
    if !HumpAt(s, 0) && Humpless(s[1..]) {
      forall i: nat ensures !HumpAt(s, i) {
        if i > 0 {
          assert !HumpAt(s[1..], i - 1);
        }
      }
    }
  }

  lemma CamelOfPlain(c: char, rest: string)
    requires c != '_' || rest == "" || !IsLower(rest[0])
    ensures ToCamelCase([c] + rest) == [c] + ToCamelCase(rest)
  {
    assert ([c] + rest)[1..] == rest;
  }

  lemma CamelOfHump(c: char, rest: string)
    requires IsLower(c)
    ensures ToCamelCase(['_', c] + rest) == [ToUpper(c)] + ToCamelCase(rest)
  {
    assert (['_', c] + rest)[2..] == rest;
  }

  lemma SnakeOf(c: char, rest: string)
    ensures ToSnakeCase([c] + rest) == (if IsUpper(c) then ['_', ToLower(c)] else [c]) + ToSnakeCase(rest)
  {
    assert ([c] + rest)[1..] == rest;
  }

  /** What becomes of a name, letter by letter: a capital A-Z turns into an underscore and its small letter, and every
      other character stays. */
  lemma SnakeLetters(s: string, t: string, c: char)
    ensures ToSnakeCase(s + t) == ToSnakeCase(s) + ToSnakeCase(t)
    ensures ToSnakeCase([c]) == if 'A' <= c <= 'Z' then ['_', (c as int - 'A' as int + 'a' as int) as char] else [c]
    ensures ToSnakeCase("") == ""
  {
    assert [c] + "" == [c];
    SnakeOf(c, "");
    SnakeOfConcat(s, t);
  }

  lemma {:induction false} SnakeOfConcat(s: string, t: string)
    ensures ToSnakeCase(s + t) == ToSnakeCase(s) + ToSnakeCase(t)
  {
    hide ToSnakeCase, ToLower;
    if s == "" {
      assert s + t == t;
      assert ToSnakeCase(s) == "" by { SnakeOfNothing(); }
    } else {
      var c, rest := s[0], s[1..];
      SnakeOfConcat(rest, t);
      SnakeOf(c, rest + t);
      SnakeOf(c, rest);
      assert s == [c] + rest && s + t == [c] + (rest + t);
    }
  }

  lemma SnakeOfNothing()
    ensures ToSnakeCase("") == ""
  {
  }

  lemma CamelOfNothing()
    ensures ToCamelCase("") == ""
  {
  }

  /** What becomes of a column, from the left: an underscore and a small letter a-z turn into the capital, and every
      other character stays. */
  lemma CamelLetters(c: char, rest: string)
    ensures 'a' <= c <= 'z' ==>
              ToCamelCase(['_', c] + rest) == [(c as int - 'a' as int + 'A' as int) as char] + ToCamelCase(rest)
    ensures !(c == '_' && rest != "" && 'a' <= rest[0] <= 'z') ==> ToCamelCase([c] + rest) == [c] + ToCamelCase(rest)
    ensures ToCamelCase("") == ""
  {
    hide ToCamelCase;
    assert ToCamelCase("") == "" by { CamelOfNothing(); }
    if 'a' <= c <= 'z' {
      CamelOfHump(c, rest);
    }
    if !(c == '_' && rest != "" && 'a' <= rest[0] <= 'z') {
      CamelOfPlain(c, rest);
    }
  }

  ghost function ThereAndBack(s: string): string { ToCamelCase(ToSnakeCase(s)) }

  lemma BackOfHump(c: char, rest: string)
    requires IsLower(c)
    ensures ThereAndBack(['_', c] + rest) == [ToUpper(c)] + ThereAndBack(rest)
  {
    SnakeOf('_', [c] + rest);
    SnakeOf(c, rest);
    hide ToSnakeCase, ToCamelCase;
    assert ['_'] + ([c] + rest) == ['_', c] + rest;
    assert ['_'] + ([c] + ToSnakeCase(rest)) == ['_', c] + ToSnakeCase(rest);
    CamelOfHump(c, ToSnakeCase(rest));
  }

  lemma BackOfOther(c: char, rest: string)
    requires !HumpAt([c] + rest, 0)
    ensures ThereAndBack([c] + rest) == [c] + ThereAndBack(rest)
  {
    SnakeOf(c, rest);
    if rest != "" {
      SnakeStart(rest);
    }
    hide ToSnakeCase, ToCamelCase, ToUpper, ToLower;
    if IsUpper(c) {
      UpperOfLower(c);
      CamelOfHump(ToLower(c), ToSnakeCase(rest));
    } else {
      CamelOfPlain(c, ToSnakeCase(rest));
    }
  }

  lemma UpperOfLower(c: char)
    requires IsUpper(c)
    ensures ToUpper(ToLower(c)) == c
  {
  }

  lemma SnakeStart(s: string)
    requires s != ""
    ensures ToSnakeCase(s) != "" && ToSnakeCase(s)[0] == if IsUpper(s[0]) then '_' else s[0]
  {
  }

  lemma {:induction false} CamelOfSnake(s: string)
    ensures |ThereAndBack(s)| <= |s|
    ensures Humpless(s) ==> ThereAndBack(s) == s
    ensures !Humpless(s) ==> |ThereAndBack(s)| < |s|
  {
    if s == "" {
    } else {
      HumplessSplit(s);
      if HumpAt(s, 0) {
        assert s == ['_', s[1]] + s[2..];
        BackOfHump(s[1], s[2..]);
        CamelOfSnake(s[2..]);
      } else {
        assert s == [s[0]] + s[1..];
        BackOfOther(s[0], s[1..]);
        CamelOfSnake(s[1..]);
      }
    }
  }

  /** Reading a name back from its column gives the name exactly when no underscore in it is followed by a small
      letter. */
  lemma {:induction false} CamelOfSnakeExact(s: string)
    ensures ToCamelCase(ToSnakeCase(s)) == s <==>
              forall i :: 0 <= i < |s| - 1 && s[i] == '_' ==> !('a' <= s[i + 1] <= 'z')
  {
    CamelOfSnake(s);
    HumplessExactly(s);
  }

  lemma HumplessExactly(s: string)
    ensures Humpless(s) <==> forall i :: 0 <= i < |s| - 1 && s[i] == '_' ==> !('a' <= s[i + 1] <= 'z')
  {
    if Humpless(s) {
      forall i | 0 <= i < |s| - 1 && s[i] == '_' ensures !('a' <= s[i + 1] <= 'z') {
        assert !HumpAt(s, i);
      }
    } else {
      var i: nat :| HumpAt(s, i);
      assert 0 <= i < |s| - 1 && s[i] == '_';
    }
  }

  lemma {:induction false} SnakeCapless(s: string)
    ensures Capless(ToSnakeCase(s))
  {
    if s == "" {
    } else {
      SnakeCapless(s[1..]);
    }
  }

  lemma {:induction false} SnakeOfCamel(s: string)
    requires Capless(s)
    ensures ToSnakeCase(ToCamelCase(s)) == s
    ensures Humpless(ToCamelCase(s))
    ensures s != "" && !HumpAt(s, 0) ==> ToCamelCase(s)[0] == s[0]
    ensures s != "" && HumpAt(s, 0) ==> IsUpper(ToCamelCase(s)[0])
  {
    if s == "" {
    } else if HumpAt(s, 0) {
      SnakeOfCamel(s[2..]);
      var c, rest := ToUpper(s[1]), ToCamelCase(s[2..]);
      assert ToCamelCase(s) == [c] + rest;
      assert ['_', ToLower(c)] + s[2..] == s;
      SnakeOf(c, rest);
      hide ToSnakeCase, ToCamelCase;
      assert ([c] + rest)[1..] == rest;
      HumplessSplit([c] + rest);
    } else {
      SnakeOfCamel(s[1..]);
      var c, rest := s[0], ToCamelCase(s[1..]);
      assert ToCamelCase(s) == [c] + rest;
      assert [c] + s[1..] == s;
      SnakeOf(c, rest);
      assert s[1..] != "" ==> rest != "" && (IsUpper(rest[0]) || rest[0] == s[1]);
      hide ToSnakeCase, ToCamelCase;
      assert ([c] + rest)[1..] == rest;
      HumplessSplit([c] + rest);
    }
  }

  /** Writing a column name back from its field gives the column exactly when the column has no capital letter. */
  lemma {:induction false} SnakeOfCamelExact(s: string)
    ensures ToSnakeCase(ToCamelCase(s)) == s <==> forall i :: 0 <= i < |s| ==> !('A' <= s[i] <= 'Z')
  {
    SnakeCapless(ToCamelCase(s));
    if Capless(s) {
      SnakeOfCamel(s);
    }
  }

  /** The two translations are inverse bijections between the humpless names and the capless ones. */
  lemma {:induction false} CaseBijection(field: string, column: string)
    ensures Humpless(field) && ToSnakeCase(field) == column <==> Capless(column) && ToCamelCase(column) == field
  {
    CamelOfSnake(field);
    SnakeCapless(field);
    if Capless(column) {
      SnakeOfCamel(column);
    }
  }

  // ---------------------------------------------------------------- records

  /** An object's own entries in insertion order: no key twice. */
  ghost predicate IsRecord<V>(entries: seq<(string, V)>) {
    forall i, j :: 0 <= i < j < |entries| ==> entries[i].0 != entries[j].0
  }

  /** The object built by assigning the entries in order under translated keys; a later assignment wins. */
  ghost function Rekey<V>(entries: seq<(string, V)>, f: string -> string): map<string, V> {
    if entries == [] then map[]
    else Rekey(entries[..|entries| - 1], f)[f(entries[|entries| - 1].0) := entries[|entries| - 1].1]
  }

  ghost function AsMap<V>(entries: seq<(string, V)>): map<string, V> {
    if entries == [] then map[]
    else AsMap(entries[..|entries| - 1])[entries[|entries| - 1].0 := entries[|entries| - 1].1]
  }

  method KeysToSnakeCase<V>(entries: seq<(string, V)>) returns (result: map<string, V>)
    ensures result == Rekey(entries, ToSnakeCase)
  {
    result := map[];
    for i := 0 to |entries|
      invariant result == Rekey(entries[..i], ToSnakeCase)
    {
      assert entries[..i + 1][..i] == entries[..i];
      var snakeKey := ToSnakeCase(entries[i].0);
      result := result[snakeKey := entries[i].1];
    }
    assert entries[..|entries|] == entries;
  }

  method KeysToCamelCase<V>(entries: seq<(string, V)>) returns (result: map<string, V>)
    ensures result == Rekey(entries, ToCamelCase)
  {
    result := map[];
    for i := 0 to |entries|
      invariant result == Rekey(entries[..i], ToCamelCase)
    {
      assert entries[..i + 1][..i] == entries[..i];
      var camelKey := ToCamelCase(entries[i].0);
      result := result[camelKey := entries[i].1];
    }
    assert entries[..|entries|] == entries;
  }

  lemma {:induction false} NewKey<V>(entries: seq<(string, V)>, key: string)
    requires forall i :: 0 <= i < |entries| ==> entries[i].0 != key
    ensures key !in AsMap(entries)
  {
    if entries == [] {
    } else {
      NewKey(entries[..|entries| - 1], key);
    }
  }

  /** The rekeyed object has the translated keys, and under each the value of the last entry whose key translates to
      it. */
  lemma {:induction false} RekeyExactly<V>(entries: seq<(string, V)>, f: string -> string, c: string)
    ensures c in Rekey(entries, f) <==> exists i :: 0 <= i < |entries| && f(entries[i].0) == c
    ensures forall i :: 0 <= i < |entries| && f(entries[i].0) == c
                        && (forall j :: i < j < |entries| ==> f(entries[j].0) != c) ==>
              c in Rekey(entries, f) && Rekey(entries, f)[c] == entries[i].1
  {
    if entries == [] {
    } else {
      var n := |entries| - 1;
      RekeyExactly(entries[..n], f, c);
      assert forall i :: 0 <= i < n ==> entries[..n][i] == entries[i];
      if f(entries[n].0) == c {
        assert c in Rekey(entries, f) && Rekey(entries, f)[c] == entries[n].1;
      } else {
        assert c in Rekey(entries, f) <==> c in Rekey(entries[..n], f);
      }
    }
  }

  /** When `g` undoes `f` on the keys, the rekeyed object has exactly the translated keys, each with its own value. */
  lemma {:induction false} RekeyLossless<V>(entries: seq<(string, V)>, f: string -> string, g: string -> string)
    requires IsRecord(entries)
    requires forall k :: k in AsMap(entries) ==> g(f(k)) == k
    ensures |Rekey(entries, f)| == |entries|
    ensures forall k :: k in AsMap(entries) ==>
              f(k) in Rekey(entries, f) && Rekey(entries, f)[f(k)] == AsMap(entries)[k]
    ensures forall c :: c in Rekey(entries, f) ==> g(c) in AsMap(entries) && f(g(c)) == c
  {
    if entries == [] {
    } else {
      var init, last := entries[..|entries| - 1], entries[|entries| - 1].0;
      NewKey(init, last);
      assert last in AsMap(entries);
      forall k | k in AsMap(init) ensures g(f(k)) == k { assert k in AsMap(entries); }
      RekeyLossless(init, f, g);
      assert f(last) !in Rekey(init, f);
    }
  }

  /** One key of a rekeyed object. */
  lemma {:induction false} RekeyAt<V>(entries: seq<(string, V)>, f: string -> string, g: string -> string, c: string)
    requires IsRecord(entries)
    requires forall k :: k in AsMap(entries) ==> g(f(k)) == k
    ensures c in Rekey(entries, f) <==> g(c) in AsMap(entries) && f(g(c)) == c
    ensures c in Rekey(entries, f) ==> Rekey(entries, f)[c] == AsMap(entries)[g(c)]
  {
    RekeyLossless(entries, f, g);
  }

  lemma {:induction false} RekeyTwice<V>(entries: seq<(string, V)>, entries': seq<(string, V)>, f: string -> string,
                                         g: string -> string)
    requires IsRecord(entries) && IsRecord(entries')
    requires forall k :: k in AsMap(entries) ==> g(f(k)) == k
    requires AsMap(entries') == Rekey(entries, f)
    ensures Rekey(entries', g) == AsMap(entries)
  {
    hide *;
    forall c | c in AsMap(entries') ensures f(g(c)) == c { RekeyAt(entries, f, g, c); }
    forall k
      ensures k in Rekey(entries', g) <==> k in AsMap(entries)
      ensures k in AsMap(entries) ==> Rekey(entries', g)[k] == AsMap(entries)[k]
    {
      RekeyAt(entries', g, f, k);
      RekeyAt(entries, f, g, f(k));
    }
  }

  /** An object written as a row and read back is the object, and no key is lost on the way:
      `columns` is any order in which the written row's entries may be listed. */
  lemma {:induction false} RecordRoundTrip<V>(fields: seq<(string, V)>, columns: seq<(string, V)>)
    requires IsRecord(fields) && IsRecord(columns)
    requires forall k :: k in AsMap(fields) ==> Humpless(k)
    requires AsMap(columns) == Rekey(fields, ToSnakeCase)
    ensures |AsMap(columns)| == |fields|
    ensures Rekey(columns, ToCamelCase) == AsMap(fields)
  {
    forall k | k in AsMap(fields) ensures ToCamelCase(ToSnakeCase(k)) == k { CamelOfSnake(k); }
    RekeyLossless(fields, ToSnakeCase, ToCamelCase);
    RekeyTwice(fields, columns, ToSnakeCase, ToCamelCase);
  }

  lemma {:induction false} MergeFrame<V>(row: seq<(string, V)>, updates: seq<(string, V)>, row': seq<(string, V)>,
                      f: string -> string, g: string -> string)
    requires IsRecord(row) && IsRecord(updates) && IsRecord(row')
    requires forall c :: c in AsMap(row) ==> f(g(c)) == c
    requires forall k :: k in AsMap(updates) ==> g(f(k)) == k
    requires AsMap(row') == AsMap(row) + Rekey(updates, f)
    ensures Rekey(row', g) == Rekey(row, g) + AsMap(updates)
  {
    hide *;
    forall c | c in AsMap(row') ensures f(g(c)) == c { RekeyAt(updates, f, g, c); }
    var lhs, rhs := Rekey(row', g), Rekey(row, g) + AsMap(updates);
    forall k
      ensures k in lhs <==> k in rhs
      ensures k in lhs ==> lhs[k] == rhs[k]
    {
      RekeyAt(row', g, f, k);
      RekeyAt(row, g, f, k);
      RekeyAt(updates, f, g, f(k));
    }
  }

  /** The frame of an update: writing translated updates into a row and reading the row back gives
      the old object with exactly the named fields replaced. */
  lemma {:induction false} UpdateFrame<V>(row: seq<(string, V)>, updates: seq<(string, V)>, row': seq<(string, V)>)
    requires IsRecord(row) && IsRecord(updates) && IsRecord(row')
    requires forall c :: c in AsMap(row) ==> Capless(c)
    requires forall k :: k in AsMap(updates) ==> Humpless(k)
    requires AsMap(row') == AsMap(row) + Rekey(updates, ToSnakeCase)
    ensures Rekey(row', ToCamelCase) == Rekey(row, ToCamelCase) + AsMap(updates)
  {
    forall k | k in AsMap(updates) ensures ToCamelCase(ToSnakeCase(k)) == k { CamelOfSnake(k); }
    forall c | c in AsMap(row) ensures ToSnakeCase(ToCamelCase(c)) == c { SnakeOfCamel(c); }
    MergeFrame(row, updates, row', ToSnakeCase, ToCamelCase);
  }
}
