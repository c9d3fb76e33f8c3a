// Tool names generated from knowledge-graph entity types, and when two types generate the same one.
module KgTools {
  import opened Prelude

  datatype Expose = ExposeList | ExposeGet | ExposeListIds

  datatype EntitySchema = EntitySchema(entityType: string, expose: seq<Expose>)

  // Only what is exposed is named, in this order whatever the order of the exposed kinds.
  method ToolNames(s: EntitySchema) returns (names: seq<string>)
    ensures forall n :: n in names <==> Generates(s, n)
    ensures Distinct(names)
  {
    Lengths(s.entityType);
    names := [];
    if ExposeList in s.expose { names := names + ["list_" + s.entityType]; }
    if ExposeGet in s.expose { names := names + ["get_" + s.entityType]; }
    if ExposeListIds in s.expose { names := names + ["list_" + s.entityType + "_ids"]; }
  }

  predicate Generates(s: EntitySchema, name: string) {
    || (ExposeList in s.expose && name == "list_" + s.entityType)
    || (ExposeGet in s.expose && name == "get_" + s.entityType)
    || (ExposeListIds in s.expose && name == "list_" + s.entityType + "_ids")
  }

  lemma Lengths(t: string)
    ensures |"list_" + t| == 5 + |t| && |"get_" + t| == 4 + |t| && |"list_" + t + "_ids"| == 9 + |t|
    ensures ("list_" + t)[0] == 'l' && ("get_" + t)[0] == 'g' && ("list_" + t + "_ids")[0] == 'l'
  {
  }

  // With a defaulted list of kinds no identifier listing is exposed.
  const DEFAULT_EXPOSE := [ExposeList, ExposeGet]

  predicate Valid(t: string) {
    && 2 <= |t| <= 64 && 'a' <= t[0] <= 'z' && t[|t| - 1] != '_'
    && forall i :: 0 <= i < |t| ==> 'a' <= t[i] <= 'z' || '0' <= t[i] <= '9' || t[i] == '_'
  }

  const LETTERS := "abcdefghijklmnopqrstuvwxyz"

  const DIGITS := "0123456789"

  predicate IsLetter(c: char) { c in LETTERS }

  predicate IsDigit(c: char) { c in DIGITS }

  predicate IsWord(c: char) { IsLetter(c) || IsDigit(c) || c == '_' }

  // A letter, at most 62 letters, digits and underscores, and a letter or digit.
  predicate Pattern(t: string, first: char, middle: string, last: char) {
    && t == [first] + middle + [last] && |middle| <= 62
    && IsLetter(first) && (IsLetter(last) || IsDigit(last))
    && forall i :: 0 <= i < |middle| ==> IsWord(middle[i])
  }

  lemma ValidIsPattern(t: string)
    ensures Valid(t) <==> exists first, middle, last :: Pattern(t, first, middle, last)
  {
    Ranges();
    if Valid(t) {
      var middle := t[1..|t| - 1];
      assert t == [t[0]] + middle + [t[|t| - 1]];
      forall i | 0 <= i < |middle| ensures IsWord(middle[i]) { assert middle[i] == t[i + 1]; }
      assert Pattern(t, t[0], middle, t[|t| - 1]);
    }
    if first, middle, last :| Pattern(t, first, middle, last) {
      forall i | 0 <= i < |t| ensures IsWord(t[i]) {
        if 0 < i < |t| - 1 { assert t[i] == middle[i - 1]; }
      }
    }
  }

  lemma Ranges()
    ensures forall c :: IsLetter(c) <==> 'a' <= c <= 'z'
    ensures forall c :: IsDigit(c) <==> '0' <= c <= '9'
  {
    forall c ensures IsLetter(c) <==> 'a' <= c <= 'z' {
      if 'a' <= c <= 'z' { assert LETTERS[c as int - 'a' as int] == c; }
    }
    forall c ensures IsDigit(c) <==> '0' <= c <= '9' {
      if '0' <= c <= '9' { assert DIGITS[c as int - '0' as int] == c; }
    }
  }

  // The longer type lists its entities under the name under which the shorter lists identifiers.
  predicate Clash(longer: EntitySchema, shorter: EntitySchema) {
    longer.entityType == shorter.entityType + "_ids" && ExposeList in longer.expose && ExposeListIds in shorter.expose
  }

  lemma SameStart(a: string, b: string, start: string)
    ensures start + a == start + b <==> a == b
  {
    assert (start + a)[|start|..] == a && (start + b)[|start|..] == b;
  }

  lemma SameEnd(a: string, b: string, end: string)
    ensures a + end == b + end <==> a == b
  {
    if a + end == b + end {
      assert (a + end)[..|a|] == a && (b + end)[..|b|] == b;
    }
  }

  lemma ListNames(a: string, b: string)
    ensures "list_" + a == "list_" + b <==> a == b
    ensures "get_" + a == "get_" + b <==> a == b
    ensures "list_" + a + "_ids" == "list_" + b + "_ids" <==> a == b
    ensures "list_" + a == "list_" + b + "_ids" <==> a == b + "_ids"
    ensures "list_" + a != "get_" + b && "get_" + a != "list_" + b + "_ids"
  {
    SameStart(a, b, "list_");
    SameStart(a, b, "get_");
    SameEnd("list_" + a, "list_" + b, "_ids");
    assert "list_" + b + "_ids" == "list_" + (b + "_ids");
    SameStart(a, b + "_ids", "list_");
    Lengths(a);
    Lengths(b);
  }

  // Two schemas with different types share a tool name exactly when one type is the other with
  // "_ids" put after it, the longer exposes its list and the shorter its list of identifiers.
  lemma SharedName(a: EntitySchema, b: EntitySchema)
    requires a.entityType != b.entityType
    ensures (exists n :: Generates(a, n) && Generates(b, n)) <==> Clash(a, b) || Clash(b, a)
  {
    ListNames(a.entityType, b.entityType);
    ListNames(b.entityType, a.entityType);
    if Clash(a, b) {
      var n := "list_" + a.entityType;
      assert Generates(a, n) && Generates(b, n);
    }
    if Clash(b, a) {
      var n := "list_" + b.entityType;
      assert Generates(a, n) && Generates(b, n);
    }
  }

  lemma DefaultsNeverShare(a: EntitySchema, b: EntitySchema)
    requires a.entityType != b.entityType && a.expose == b.expose == DEFAULT_EXPOSE
    ensures !exists n :: Generates(a, n) && Generates(b, n)
  {
    SharedName(a, b);
  }

  // Both types of a clash can be valid identifiers: it takes a shorter type of at most 60 characters.
  lemma ClashingTypesAreValid(t: string)
    requires Valid(t)
    ensures Valid(t + "_ids") <==> |t| <= 60
  {
    var long := t + "_ids";
    assert long[|long| - 1] == 's';
    assert forall i :: 0 <= i < |t| ==> long[i] == t[i];
    assert long[|t|] == '_' && long[|t| + 1] == 'i' && long[|t| + 2] == 'd' && long[|t| + 3] == 's';
  }
}
