/** The errors of the Skill service: the exception class each failure is
    reported with and the exact message templates the REST tests compare
    against. The lemmas show that each template is unambiguous: a message
    determines the values that were written into it, and no two templates
    can produce the same text. */
module SkillErrors {
  import opened Wrappers
  import opened Decimal

  /** A failure of the service, by exception class. */
  datatype ServiceError =
    | EntityNotFound(message: string)
    | IllegalState(message: string)
  {
    /** The `exceptionClass` field of the REST error body. */
    function ExceptionClass(): (c: string)
      ensures EntityNotFound? <==> c == "javax.persistence.EntityNotFoundException"
      ensures IllegalState? <==> c == "java.lang.IllegalStateException"
    {
      match this
      case EntityNotFound(_) => "javax.persistence.EntityNotFoundException"
      case IllegalState(_) => "java.lang.IllegalStateException"
    }
  }

  /** The tenant in the request path differs from the tenant of the skill
      being checked; the skill is named by its name (Skill.toString). */
  function TenantMismatchMessage(pathTenant: int, name: string, entityTenant: int): (m: string)
    ensures |m| == |IntToString(pathTenant)| + |name| + |IntToString(entityTenant)| + 64
    ensures m[14..14 + |IntToString(pathTenant)|] == IntToString(pathTenant)
    ensures m[48 + |IntToString(pathTenant)|..48 + |IntToString(pathTenant)| + |name|] == name
    ensures m[|m| - 2 - |IntToString(entityTenant)|..|m| - 2] == IntToString(entityTenant)
  {
    var pre, mid, post, end := "The tenantId (", ") does not match the persistable (", ")'s tenantId (", ").";
    PiecesOfSeven(pre, IntToString(pathTenant), mid, name, post, IntToString(entityTenant), end);
    pre + IntToString(pathTenant) + mid + name + post + IntToString(entityTenant) + end
  }

  /** Where the second, fourth and sixth pieces of a seven-piece message lie. */
  lemma PiecesOfSeven(s1: string, s2: string, s3: string, s4: string, s5: string, s6: string, s7: string)
    ensures var m := s1 + s2 + s3 + s4 + s5 + s6 + s7;
            && |m| == |s1| + |s2| + |s3| + |s4| + |s5| + |s6| + |s7|
            && m[|s1|..|s1| + |s2|] == s2
            && m[|s1| + |s2| + |s3|..|s1| + |s2| + |s3| + |s4|] == s4
            && m[|m| - |s7| - |s6|..|m| - |s7|] == s6
  {
    var m := s1 + s2 + s3 + s4 + s5 + s6 + s7;
    assert m == s1 + s2 + (s3 + s4 + s5 + s6 + s7);
    assert m == (s1 + s2 + s3) + s4 + (s5 + s6 + s7);
    assert m == (s1 + s2 + s3 + s4 + s5) + s6 + s7;
  }

  /** A get by an id that is not stored. */
  function NoEntityFoundMessage(id: int): (m: string)
    ensures |m| == |IntToString(id)| + 33 && m[31..|m| - 2] == IntToString(id)
  {
    "No Skill entity found with ID (" + IntToString(id) + ")."
  }

  /** Java's rendering of a nullable Long id. */
  function IdText(id: Option<int>): string {
    match id
    case None => "null"
    case Some(i) => IntToString(i)
  }

  /** An update whose view names an id that is not stored. */
  function UpdateNotFoundMessage(id: Option<int>): (m: string)
    ensures |m| == |IdText(id)| + 34 && m[22..|m| - 12] == IdText(id)
  {
    "Skill entity with ID (" + IdText(id) + ") not found."
  }

  /** An update of a skill stored under another tenant. */
  function CannotChangeTenantsMessage(storedTenant: int): (m: string)
    ensures |m| == |IntToString(storedTenant)| + 52 && m[28..|m| - 24] == IntToString(storedTenant)
  {
    "Skill entity with tenantId (" + IntToString(storedTenant) + ") cannot change tenants."
  }

  lemma NoParentheses(x: int)
    ensures '(' !in IntToString(x) && ')' !in IntToString(x)
  {
    var s := IntToString(x);
    if x < 0 {
      assert forall i :: 1 <= i < |s| ==> s[i] == s[1..][i - 1];
    }
  }

  lemma ConcatAt(a: string, c: char, x: string, k: int)
    ensures 0 <= k < |a| ==> (a + [c] + x)[k] == a[k]
    ensures k == |a| ==> (a + [c] + x)[k] == c
    ensures 0 <= k < |a| ==> (x + [c] + a)[|x| + 1 + k] == a[k]
  {
  }

  /** Splitting at the first occurrence of a delimiter that the two heads do not contain. */
  lemma {:induction false} SplitAtFirst(a: string, x: string, b: string, y: string, c: char)
    requires c !in a && c !in b
    requires a + [c] + x == b + [c] + y
    ensures a == b && x == y
  {
    var m := a + [c] + x;
    if |a| != |b| {
      var k := if |a| < |b| then |a| else |b|;
      ConcatAt(a, c, x, k);
      ConcatAt(b, c, y, k);
      assert false;
    }
    assert a == m[..|a|] && b == (b + [c] + y)[..|b|];
    assert x == m[|a| + 1..] && y == (b + [c] + y)[|b| + 1..];
  }

  /** Splitting at the last occurrence of a delimiter that the two tails do not contain. */
  lemma {:induction false} SplitAtLast(x: string, a: string, y: string, b: string, c: char)
    requires c !in a && c !in b
    requires x + [c] + a == y + [c] + b
    ensures a == b && x == y
  {
    var m := x + [c] + a;
    if |a| != |b| {
      var k := if |a| < |b| then |a| else |b|;
      var j := |m| - 1 - k;
      ConcatAt(a, c, x, j - |x| - 1);
      ConcatAt(x, c, a, j);
      ConcatAt(b, c, y, j - |y| - 1);
      ConcatAt(y, c, b, j);
      assert false;
    }
    assert x == m[..|x|] && y == (y + [c] + b)[..|y|];
    assert a == m[|x| + 1..] && b == (y + [c] + b)[|y| + 1..];
  }

  /** A message cut after its first piece, inside its third. */
  lemma CutAfterFirst(s1: string, s2: string, s3: string, rest: string)
    requires |s3| >= 1
    ensures (s1 + s2 + s3 + rest)[|s1|..] == s2 + [s3[0]] + (s3[1..] + rest)
  {
    assert s3 == [s3[0]] + s3[1..];
  }

  /** A message cut before its last piece, inside the piece before the last but one. */
  lemma CutBeforeLast(head: string, s5: string, s6: string, s7: string)
    requires |s5| >= 1
    ensures (head + s5 + s6 + s7)[..|head + s5 + s6|] == (head + s5[..|s5| - 1]) + [s5[|s5| - 1]] + s6
  {
    assert s5 == s5[..|s5| - 1] + [s5[|s5| - 1]];
  }

  /** A seven-piece message cut after its first piece and before its last. */
  lemma Cuts(s1: string, s2: string, s3: string, s4: string, s5: string, s6: string, s7: string)
    requires |s3| >= 1 && |s5| >= 1
    ensures (s1 + s2 + s3 + s4 + s5 + s6 + s7)[|s1|..] == s2 + [s3[0]] + (s3[1..] + s4 + s5 + s6 + s7)
    ensures (s1 + s2 + s3 + s4 + s5 + s6 + s7)[..|s1 + s2 + s3 + s4 + s5 + s6|]
         == (s1 + s2 + s3 + s4 + s5[..|s5| - 1]) + [s5[|s5| - 1]] + s6
  {
    var m := s1 + s2 + s3 + s4 + s5 + s6 + s7;
    assert m == s1 + s2 + s3 + (s4 + s5 + s6 + s7);
    CutAfterFirst(s1, s2, s3, s4 + s5 + s6 + s7);
    assert s3[1..] + (s4 + s5 + s6 + s7) == s3[1..] + s4 + s5 + s6 + s7;
    CutBeforeLast(s1 + s2 + s3 + s4, s5, s6, s7);
  }

  /** The mismatch message determines the path tenant, the name and the entity's tenant. */
  lemma TenantMismatchMessageInjective(p1: int, n1: string, t1: int, p2: int, n2: string, t2: int)
    requires TenantMismatchMessage(p1, n1, t1) == TenantMismatchMessage(p2, n2, t2)
    ensures p1 == p2 && n1 == n2 && t1 == t2
  {
    var pre, mid, post, end := "The tenantId (", ") does not match the persistable (", ")'s tenantId (", ").";
    var dp1, dp2, dt1, dt2 := IntToString(p1), IntToString(p2), IntToString(t1), IntToString(t2);
    var m := TenantMismatchMessage(p1, n1, t1);
    assert m == pre + dp1 + mid + n1 + post + dt1 + end;
    assert m == pre + dp2 + mid + n2 + post + dt2 + end;
    NoParentheses(p1); NoParentheses(p2); NoParentheses(t1); NoParentheses(t2);
    Cuts(pre, dp1, mid, n1, post, dt1, end);
    Cuts(pre, dp2, mid, n2, post, dt2, end);
    // The path tenant runs from the opening prefix to the first ')'.
    SplitAtFirst(dp1, mid[1..] + n1 + post + dt1 + end, dp2, mid[1..] + n2 + post + dt2 + end, ')');
    IntToStringInjective(p1, p2);
    // The entity's tenant runs from the last '(' to the closing ").".
    var head1 := pre + dp1 + mid + n1 + post[..|post| - 1];
    var head2 := pre + dp2 + mid + n2 + post[..|post| - 1];
    assert |pre + dp1 + mid + n1 + post + dt1| == |m| - 2 == |pre + dp2 + mid + n2 + post + dt2|;
    SplitAtLast(head1, dt1, head2, dt2, '(');
    IntToStringInjective(t1, t2);
    // What remains between them is the name.
    var k := |pre + dp1 + mid|;
    assert n1 == head1[k..k + |n1|];
    assert n2 == head2[k..k + |n2|];
  }

  /** The mismatch message with path tenant 0, the one the tests write out. */
  lemma TenantMismatchMessageAtZero(name: string, entityTenant: int)
    ensures TenantMismatchMessage(0, name, entityTenant)
            == "The tenantId (0) does not match the persistable (" + name + ")'s tenantId ("
               + IntToString(entityTenant) + ")."
  {
    assert IntToString(0) == "0";
    assert "The tenantId (" + "0" + ") does not match the persistable ("
           == "The tenantId (0) does not match the persistable (";
  }

  /** The get-not-found message determines the id. */
  lemma NoEntityFoundMessageInjective(id1: int, id2: int)
    requires NoEntityFoundMessage(id1) == NoEntityFoundMessage(id2)
    ensures id1 == id2
  {
    var pre := "No Skill entity found with ID (";
    var m := NoEntityFoundMessage(id1);
    assert IntToString(id1) == m[|pre|..|m| - 2] == IntToString(id2);
    IntToStringInjective(id1, id2);
  }

  /** The update-not-found message determines the id, including whether it was absent. */
  lemma UpdateNotFoundMessageInjective(id1: Option<int>, id2: Option<int>)
    requires UpdateNotFoundMessage(id1) == UpdateNotFoundMessage(id2)
    ensures id1 == id2
  {
    var pre := "Skill entity with ID (";
    var m := UpdateNotFoundMessage(id1);
    assert IdText(id1) == m[|pre|..|m| - 12] == IdText(id2);
    if id1.Some? && id2.Some? {
      IntToStringInjective(id1.value, id2.value);
    }
  }

  /** The cannot-change-tenants message determines the stored tenant. */
  lemma CannotChangeTenantsMessageInjective(t1: int, t2: int)
    requires CannotChangeTenantsMessage(t1) == CannotChangeTenantsMessage(t2)
    ensures t1 == t2
  {
    var pre := "Skill entity with tenantId (";
    var m := CannotChangeTenantsMessage(t1);
    assert IntToString(t1) == m[|pre|..|m| - 24] == IntToString(t2);
    IntToStringInjective(t1, t2);
  }

  lemma TenantMismatchMessageHead(p: int, n: string, t: int)
    ensures TenantMismatchMessage(p, n, t)[0] == 'T'
  {
  }

  lemma NoEntityFoundMessageHead(id: int)
    ensures NoEntityFoundMessage(id)[0] == 'N'
  {
  }

  lemma UpdateNotFoundMessageHead(id: Option<int>)
    ensures UpdateNotFoundMessage(id)[0] == 'S' && UpdateNotFoundMessage(id)[18] == 'I'
  {
  }

  lemma CannotChangeTenantsMessageHead(t: int)
    ensures CannotChangeTenantsMessage(t)[0] == 'S' && CannotChangeTenantsMessage(t)[18] == 't'
  {
  }

  /** No two of the four templates produce the same message, whatever is written into them. */
  lemma TemplatesDistinct(p: int, n: string, t: int, id: int, uid: Option<int>, st: int)
    ensures TenantMismatchMessage(p, n, t) != NoEntityFoundMessage(id)
    ensures TenantMismatchMessage(p, n, t) != UpdateNotFoundMessage(uid)
    ensures TenantMismatchMessage(p, n, t) != CannotChangeTenantsMessage(st)
    ensures NoEntityFoundMessage(id) != UpdateNotFoundMessage(uid)
    ensures NoEntityFoundMessage(id) != CannotChangeTenantsMessage(st)
    ensures UpdateNotFoundMessage(uid) != CannotChangeTenantsMessage(st)
  {
    TenantMismatchMessageHead(p, n, t);
    NoEntityFoundMessageHead(id);
    UpdateNotFoundMessageHead(uid);
    CannotChangeTenantsMessageHead(st);
  }
}
