/** The container-builder page: its local class-name joiner and the colour of
    the build-history status dots. */
module Builder {
  import opened Strings

  /** The values a caller passes to `cn`: strings and the results of
      `condition && 'class'` guards. */
  datatype ClassValue = Str(s: string) | Bool(b: bool) | Num(n: int) | Null | Undefined

  /** JavaScript truthiness (`filter(Boolean)`). */
  predicate Truthy(c: ClassValue) {
    match c
    case Str(s) => s != ""
    case Bool(b) => b
    case Num(n) => n != 0
    case Null => false
    case Undefined => false
  }

  /** How a kept value prints when joined. */
  function Text(c: ClassValue): (t: string)
    requires Truthy(c)
    ensures t != ""
  {
    match c
    case Str(s) => s
    case Bool(_) => "true"
    case Num(n) => IntToString(n)
  }

  /** The texts of the truthy arguments, in argument order. */
  function Kept(classes: seq<ClassValue>): (r: seq<string>)
    ensures |r| <= |classes|
    ensures forall i :: 0 <= i < |r| ==> r[i] != ""
  {
    if classes == [] then []
    else (if Truthy(classes[0]) then [Text(classes[0])] else []) + Kept(classes[1..])
  }

  /** `classes.filter(Boolean).join(' ')`: empty exactly when no argument is kept. */
  function Cn(classes: seq<ClassValue>): (r: string)
    ensures r == "" <==> Kept(classes) == []
    ensures |Kept(classes)| == 1 ==> r == Kept(classes)[0]
  {
    JoinOfNonEmptyParts(Kept(classes), " ");
    Join(Kept(classes), " ")
  }

  lemma {:induction false} KeptAppend(a: seq<ClassValue>, b: seq<ClassValue>)
    ensures Kept(a + b) == Kept(a) + Kept(b)
  {
    if a == [] {
      assert a + b == b;
    } else {
      assert (a + b)[0] == a[0];
      assert (a + b)[1..] == a[1..] + b;
      KeptAppend(a[1..], b);
    }
  }

  /** A join of non-empty parts is empty exactly when there are no parts. */
  lemma JoinOfNonEmptyParts(parts: seq<string>, sep: string)
    requires forall i :: 0 <= i < |parts| ==> parts[i] != ""
    ensures Join(parts, sep) == "" <==> parts == []
  {
    if |parts| >= 2 {
      assert |parts[0] + sep + Join(parts[1..], sep)| >= |parts[0]|;
    }
  }

  /** No argument, or only falsy ones, gives the empty string. */
  lemma {:induction false} CnOfFalsy(classes: seq<ClassValue>)
    requires forall c :: c in classes ==> !Truthy(c)
    ensures Cn(classes) == ""
  {
    if classes != [] {
      CnOfFalsy(classes[1..]);
    }
  }

  /** Any argument with some text leaves a non-empty class string. */
  lemma CnEmptyIffAllFalsy(classes: seq<ClassValue>)
    ensures Cn(classes) == "" <==> forall c :: c in classes ==> !Truthy(c)
  {
    JoinOfNonEmptyParts(Kept(classes), " ");
    if forall c :: c in classes ==> !Truthy(c) {
      CnOfFalsy(classes);
    } else {
      var i :| 0 <= i < |classes| && Truthy(classes[i]);
      assert classes == classes[..i] + [classes[i]] + classes[i + 1..];
      KeptAppend(classes[..i] + [classes[i]], classes[i + 1..]);
      KeptAppend(classes[..i], [classes[i]]);
    }
  }

  /** A single class name comes back unchanged. */
  lemma CnSingle(s: string)
    requires s != ""
    ensures Cn([Str(s)]) == s
  {
    assert [Str(s)][1..] == [];
  }

  /** A falsy argument can be dropped anywhere without changing the result. */
  lemma CnDropsFalsy(before: seq<ClassValue>, c: ClassValue, after: seq<ClassValue>)
    requires !Truthy(c)
    ensures Cn(before + [c] + after) == Cn(before + after)
  {
    assert Kept([c]) == [] by {
      assert [c][1..] == [];
    }
    KeptAppend(before + [c], after);
    KeptAppend(before, [c]);
    KeptAppend(before, after);
    assert Kept(before + [c]) == Kept(before);
  }

  /** Joining two argument lists: the two results in order, one space between
      them when both are non-empty. */
  lemma CnAppend(a: seq<ClassValue>, b: seq<ClassValue>)
    ensures Cn(a + b) ==
      if Cn(a) == "" then Cn(b)
      else if Cn(b) == "" then Cn(a)
      else Cn(a) + " " + Cn(b)
  {
    KeptAppend(a, b);
    JoinAppend(Kept(a), Kept(b), " ");
    JoinOfNonEmptyParts(Kept(a), " ");
    JoinOfNonEmptyParts(Kept(b), " ");
  }

  // ---------------------------------------------------------------------------
  // Build history

  /** The colour class of a build's status dot. */
  function DotColor(status: string): (c: string)
    ensures c == "bg-green-500" <==> status == "success"
    ensures c != "bg-green-500" ==> c == "bg-red-500"
  {
    if status == "success" then "bg-green-500" else "bg-red-500"
  }

  /** The dot's full class string: the fixed shape classes, then its colour. */
  lemma DotClasses(status: string)
    ensures Cn([Str("h-2 w-2 rounded-full"), Str(DotColor(status))])
         == "h-2 w-2 rounded-full " + DotColor(status)
  {
    CnAppend([Str("h-2 w-2 rounded-full")], [Str(DotColor(status))]);
    CnSingle("h-2 w-2 rounded-full");
    CnSingle(DotColor(status));
    assert [Str("h-2 w-2 rounded-full")] + [Str(DotColor(status))]
        == [Str("h-2 w-2 rounded-full"), Str(DotColor(status))];
  }
}
