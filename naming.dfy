/**
 The naming conventions that turn route tokens into type and method names:
 the first character is upper-cased and the rest is kept; a controller's
 class name carries the suffix "Controller", an action's method name none.
 Upper-casing is ASCII only (a-z to A-Z).
 */
module Naming {

  const ControllerSuffix: string := "Controller"

  predicate IsLowerAscii(c: char) {
    'a' <= c <= 'z'
  }

  /** char.ToUpper restricted to ASCII letters. */
  function ToUpper(c: char): (u: char)
    ensures !IsLowerAscii(u)
    ensures u != c <==> IsLowerAscii(c)
    ensures IsLowerAscii(c) ==> u as int + 32 == c as int
  {
    if IsLowerAscii(c) then (c as int - 32) as char else c
  }

  /** First character upper-cased, the rest of the token unchanged. */
  function Capitalize(token: string): (r: string)
    requires |token| > 0
    ensures |r| == |token|
    ensures r[0] == ToUpper(token[0]) && !IsLowerAscii(r[0])
    ensures forall i :: 1 <= i < |token| ==> r[i] == token[i]
  {
    [ToUpper(token[0])] + token[1..]
  }

  /** The class name a controller token must resolve to. */
  function ControllerClassName(token: string): (r: string)
    requires |token| > 0
    ensures |r| == |token| + |ControllerSuffix|
    ensures r[0] == ToUpper(token[0])
    ensures forall i :: 1 <= i < |token| ==> r[i] == token[i]
    ensures forall i :: 0 <= i < |ControllerSuffix| ==> r[|token| + i] == ControllerSuffix[i]
  {
    Capitalize(token) + ControllerSuffix
  }

  /** The method name an action token must resolve to (no suffix). */
  function ActionMethodName(token: string): (r: string)
    requires |token| > 0
    ensures |r| == |token|
    ensures r[0] == ToUpper(token[0])
    ensures forall i :: 1 <= i < |token| ==> r[i] == token[i]
  {
    Capitalize(token)
  }

  /** Two tokens give the same name exactly when they agree after the first
      character and their first characters agree once upper-cased. */
  lemma {:induction false} CapitalizeEqualIff(a: string, b: string)
    requires |a| > 0 && |b| > 0
    ensures Capitalize(a) == Capitalize(b) <==> ToUpper(a[0]) == ToUpper(b[0]) && a[1..] == b[1..]
  {
  }

  /** Capitalizing a name that is already capitalized changes nothing. */
  lemma {:induction false} CapitalizeIdempotent(token: string)
    requires |token| > 0
    ensures Capitalize(Capitalize(token)) == Capitalize(token)
  {
  }

  /** A controller class name is the action-style name of the token followed
      by "Controller", so the suffix can be stripped to recover it. */
  lemma {:induction false} ControllerClassNameShape(token: string)
    requires |token| > 0
    ensures |ControllerClassName(token)| == |token| + |ControllerSuffix|
    ensures ControllerClassName(token)[..|token|] == ActionMethodName(token)
    ensures ControllerClassName(token)[|token|..] == ControllerSuffix
  {
  }

  /** Controller tokens resolve to the same class exactly when they resolve
      to the same capitalized name. */
  lemma {:induction false} ControllerClassNameEqualIff(a: string, b: string)
    requires |a| > 0 && |b| > 0
    ensures ControllerClassName(a) == ControllerClassName(b) <==> Capitalize(a) == Capitalize(b)
  {
  }

  /** "home" resolves to the class "HomeController". */
  lemma HomeControllerName()
    ensures ControllerClassName("home") == "HomeController"
  {
  }

  /** "index" and "Index" both resolve to the method "Index". */
  lemma IndexActionName()
    ensures ActionMethodName("index") == "Index"
    ensures ActionMethodName("Index") == "Index"
  {
  }
}
