/** Expanding `${VAR}` references in one pass.

    The specification works byte by byte.  The scanner works character by
    character on UTF-8 text, and is proved to compute the specification and to
    cut the text only between characters. */
module Expand {
  import opened Types

  const BACKSLASH: Byte := 92
  const DOLLAR: Byte := 36
  const OPEN: Byte := 123
  const CLOSE: Byte := 125

  /** The value of a variable, from the request's environment or the process's. */
  type Env = Bytes -> Option<Bytes>

  /** The first closing brace at or after `start`. */
  function FindClose(s: Bytes, start: nat): (r: Option<nat>)
    requires start <= |s|
    ensures r.Some? ==> start <= r.value < |s| && s[r.value] == CLOSE
    decreases |s| - start
  {
    if start == |s| then None
    else if s[start] == CLOSE then Some(start)
    else FindClose(s, start + 1)
  }

  lemma {:induction false} FindCloseIsFirst(s: Bytes, start: nat)
    requires start <= |s|
    ensures var r := FindClose(s, start);
            forall k :: start <= k < (if r.Some? then r.value else |s|) ==> s[k] != CLOSE
    decreases |s| - start
  {
    if start < |s| && s[start] != CLOSE { FindCloseIsFirst(s, start + 1); }
  }

  /** No closing brace comes before the one at `k`. */
  lemma {:induction false} FindCloseAt(s: Bytes, start: nat, k: nat)
    requires start <= k < |s| && s[k] == CLOSE && forall j :: start <= j < k ==> s[j] != CLOSE
    ensures FindClose(s, start) == Some(k)
    decreases k - start
  {
    if start < k { FindCloseAt(s, start + 1, k); }
  }

  lemma {:induction false} FindCloseNone(s: Bytes, start: nat)
    requires start <= |s| && forall j :: start <= j < |s| ==> s[j] != CLOSE
    ensures FindClose(s, start) == None
    decreases |s| - start
  {
    if start < |s| { FindCloseNone(s, start + 1); }
  }

  /** `${` stands at `i`. */
  predicate Refers(s: Bytes, i: nat)
  {
    i + 1 < |s| && s[i] == DOLLAR && s[i + 1] == OPEN
  }

  function Value(env: Env, s: Bytes, i: nat, close: nat): Bytes
    requires i + 2 <= close < |s|
  {
    var v := env(s[i + 2..close]);
    if v.Some? then v.value else s[i..close + 1]
  }

  /** What the scanner makes of the text at `i`, and where it goes on. */
  function Token(env: Env, s: Bytes, i: nat): (r: (Bytes, nat))
    requires i < |s|
    ensures i < r.1 <= |s|
  {
    if s[i] == BACKSLASH then
      if i + 1 < |s| && s[i + 1] == BACKSLASH then ([BACKSLASH], i + 2)
      else if Refers(s, i + 1) && FindClose(s, i + 3).Some? then
        var close := FindClose(s, i + 3).value;
        (s[i + 1..close + 1], close + 1)
      else ([BACKSLASH], i + 1)
    else if Refers(s, i) && FindClose(s, i + 2).Some? then
      var close := FindClose(s, i + 2).value;
      (Value(env, s, i, close), close + 1)
    else ([s[i]], i + 1)
  }

  /** What a scanner makes of each position, and where it goes on from there. */
  type Scanner = nat -> (Bytes, nat)

  function ScannerOf(env: Env, s: Bytes): Scanner
  {
    (i: nat) => if i < |s| then Token(env, s, i) else ([], i)
  }

  /** The pieces from `i` to `n`, one after the other. */
  function Scan(scanner: Scanner, n: nat, i: nat): Bytes
    decreases n - i
  {
    if i >= n || scanner(i).1 <= i then []
    else scanner(i).0 + Scan(scanner, n, scanner(i).1)
  }

  function Expand(env: Env, s: Bytes): Bytes
  {
    Scan(ScannerOf(env, s), |s|, 0)
  }

  /** At `k + j`, `a` does what `b` does at `j`. */
  ghost predicate ShiftsAt(a: Scanner, b: Scanner, n: nat, k: nat, j: nat)
  {
    b(j).1 <= n && a(k + j) == (b(j).0, k + b(j).1)
  }

  ghost predicate Shifts(a: Scanner, b: Scanner, n: nat, k: nat)
  {
    forall j: nat :: j < n ==> ShiftsAt(a, b, n, k, j)
  }

  lemma {:induction false} ScanShift(a: Scanner, m: nat, b: Scanner, n: nat, k: nat, i: nat)
    requires m == k + n && i <= n && Shifts(a, b, n, k)
    ensures Scan(a, m, k + i) == Scan(b, n, i)
    decreases n - i
  {
    if i < n {
      assert ShiftsAt(a, b, n, k, i);
      if b(i).1 > i { ScanShift(a, m, b, n, k, b(i).1); }
    }
  }

  lemma {:induction false} ScanCopies(a: Scanner, n: nat, s: Bytes, i: nat, j: nat)
    requires i <= j <= |s| && j <= n && forall k: nat :: i <= k < j ==> a(k) == ([s[k]], k + 1)
    ensures Scan(a, n, i) == s[i..j] + Scan(a, n, j)
    decreases j - i
  {
    if i == j {
      assert s[i..j] == [];
    } else {
      ScanCopies(a, n, s, i + 1, j);
      assert s[i..j] == [s[i]] + s[i + 1..j];
    }
  }

  // ----- Every literal is expressible -----

  /** Backslashes doubled outside braces, and every closed `${` escaped. */
  function EscapeFrom(s: Bytes, i: nat): Bytes
    requires i <= |s|
    decreases |s| - i
  {
    if i == |s| then []
    else if s[i] == BACKSLASH then [BACKSLASH, BACKSLASH] + EscapeFrom(s, i + 1)
    else if Refers(s, i) && FindClose(s, i + 2).Some? then
      var close := FindClose(s, i + 2).value;
      [BACKSLASH] + s[i..close + 1] + EscapeFrom(s, close + 1)
    else [s[i]] + EscapeFrom(s, i + 1)
  }

  function Escape(s: Bytes): Bytes
  {
    EscapeFrom(s, 0)
  }

  /** Escaping adds no closing brace where there was none. */
  lemma {:induction false} EscapeAddsNoClose(s: Bytes, i: nat)
    requires i <= |s| && FindClose(s, i).None?
    ensures forall k :: 0 <= k < |EscapeFrom(s, i)| ==> EscapeFrom(s, i)[k] != CLOSE
    decreases |s| - i
  {
    if i < |s| {
      FindCloseIsFirst(s, i);
      if Refers(s, i) { FindCloseNone(s, i + 2); }
      EscapeAddsNoClose(s, i + 1);
    }
  }

  /** What follows a byte copied as it is does not turn it into a reference. */
  lemma EscapeHead(s: Bytes, i: nat)
    requires i <= |s|
    ensures EscapeFrom(s, i) != [] && EscapeFrom(s, i)[0] == OPEN ==> i < |s| && s[i] == OPEN
  {
  }

  lemma SliceShift(p: Bytes, t: Bytes, i: nat, j: nat)
    requires i <= j <= |t|
    ensures (p + t)[|p| + i..|p| + j] == t[i..j]
  {
  }

  lemma RefersShift(p: Bytes, t: Bytes, i: nat)
    ensures Refers(p + t, |p| + i) == Refers(t, i)
  {
  }

  ghost predicate TokenShifts(env: Env, p: Bytes, t: Bytes, i: nat)
    requires i < |t|
  {
    Token(env, p + t, |p| + i) == (Token(env, t, i).0, |p| + Token(env, t, i).1)
  }

  lemma EscapeTokenShift(env: Env, p: Bytes, t: Bytes, i: nat)
    requires i < |t| && t[i] == BACKSLASH
    ensures TokenShifts(env, p, t, i)
  {
    RefersShift(p, t, i + 1);
    assert (p + t)[|p| + i] == BACKSLASH;
    assert i + 1 < |t| ==> (p + t)[|p| + i + 1] == t[i + 1];
    if Refers(t, i + 1) {
      ShiftClose(p, t, i + 3);
      if FindClose(t, i + 3).Some? { SliceShift(p, t, i + 1, FindClose(t, i + 3).value + 1); }
    }
  }

  lemma PlainTokenShift(env: Env, p: Bytes, t: Bytes, i: nat)
    requires i < |t| && t[i] != BACKSLASH
    ensures TokenShifts(env, p, t, i)
  {
    RefersShift(p, t, i);
    assert (p + t)[|p| + i] == t[i];
    if Refers(t, i) {
      ShiftClose(p, t, i + 2);
      if FindClose(t, i + 2).Some? {
        SliceShift(p, t, i, FindClose(t, i + 2).value + 1);
        SliceShift(p, t, i + 2, FindClose(t, i + 2).value);
      }
    }
  }

  lemma {:induction false} ShiftClose(p: Bytes, t: Bytes, i: nat)
    requires i <= |t|
    ensures FindClose(p + t, |p| + i) ==
            if FindClose(t, i).Some? then Some(|p| + FindClose(t, i).value) else None
    decreases |t| - i
  {
    if i < |t| && t[i] != CLOSE { ShiftClose(p, t, i + 1); }
  }

  lemma ScannerShift(env: Env, p: Bytes, t: Bytes, j: nat)
    requires j < |t|
    ensures ShiftsAt(ScannerOf(env, p + t), ScannerOf(env, t), |t|, |p|, j)
  {
    if t[j] == BACKSLASH { EscapeTokenShift(env, p, t, j); } else { PlainTokenShift(env, p, t, j); }
  }

  lemma ScannersShift(env: Env, p: Bytes, t: Bytes)
    ensures Shifts(ScannerOf(env, p + t), ScannerOf(env, t), |t|, |p|)
  {
    forall j: nat | j < |t| ensures ShiftsAt(ScannerOf(env, p + t), ScannerOf(env, t), |t|, |p|, j) {
      ScannerShift(env, p, t, j);
    }
  }

  lemma ExpandRest(env: Env, p: Bytes, t: Bytes)
    ensures Scan(ScannerOf(env, p + t), |p + t|, |p|) == Expand(env, t)
  {
    ScannersShift(env, p, t);
    ScanShift(ScannerOf(env, p + t), |p + t|, ScannerOf(env, t), |t|, |p|, 0);
  }

  /** The text after a first piece expands as it would alone. */
  lemma ExpandAfter(env: Env, p: Bytes, t: Bytes, piece: Bytes)
    requires p != [] && Token(env, p + t, 0) == (piece, |p|)
    ensures Expand(env, p + t) == piece + Expand(env, t)
  {
    ExpandRest(env, p, t);
    assert ScannerOf(env, p + t)(0) == (piece, |p|);
  }

  /** Two backslashes make one, and what follows is scanned as if alone. */
  lemma ExpandDoubled(env: Env, t: Bytes)
    ensures Expand(env, [BACKSLASH, BACKSLASH] + t) == [BACKSLASH] + Expand(env, t)
  {
    ExpandAfter(env, [BACKSLASH, BACKSLASH], t, [BACKSLASH]);
  }

  /** A closed reference gives its variable's value, which is not scanned again,
      or stays as it is; a brace cannot be part of a name. */
  lemma ExpandReference(env: Env, name: Bytes, t: Bytes)
    requires CLOSE !in name
    ensures var ref := [DOLLAR, OPEN] + name + [CLOSE];
            Expand(env, ref + t) == (if env(name).Some? then env(name).value else ref) + Expand(env, t)
  {
    var ref := [DOLLAR, OPEN] + name + [CLOSE];
    var s, close := ref + t, |name| + 2;
    assert forall k :: 2 <= k < close ==> s[k] == name[k - 2];
    FindCloseAt(s, 2, close);
    assert s[2..close] == name && s[0..close + 1] == ref;
    ExpandAfter(env, ref, t, if env(name).Some? then env(name).value else ref);
  }

  /** An escaped reference stays, without its backslash. */
  lemma ExpandEscaped(env: Env, ref: Bytes, t: Bytes)
    requires |ref| >= 3 && ref[0] == DOLLAR && ref[1] == OPEN && ref[|ref| - 1] == CLOSE
    requires forall k :: 2 <= k < |ref| - 1 ==> ref[k] != CLOSE
    ensures Expand(env, [BACKSLASH] + ref + t) == ref + Expand(env, t)
  {
    var p := [BACKSLASH] + ref;
    var s := p + t;
    assert s[1..|ref| + 1] == ref;
    assert forall k :: 1 <= k <= |ref| ==> s[k] == ref[k - 1];
    FindCloseAt(s, 3, |ref|);
    ExpandAfter(env, p, t, ref);
  }

  /** Any other byte stays, a dollar that opens no closed reference included. */
  lemma ExpandPlain(env: Env, b: Byte, t: Bytes)
    requires b != BACKSLASH
    requires b == DOLLAR && t != [] && t[0] == OPEN ==> forall k :: 0 <= k < |t| ==> t[k] != CLOSE
    ensures Expand(env, [b] + t) == [b] + Expand(env, t)
  {
    var s := [b] + t;
    if Refers(s, 0) {
      assert forall k :: 1 <= k < |s| ==> s[k] == t[k - 1];
      FindCloseNone(s, 2);
    }
    ExpandAfter(env, [b], t, [b]);
  }

  /** `${` leads the text, and a brace closes it. */
  predicate LeadsClosed(t: Bytes)
  {
    Refers(t, 0) && CLOSE in t[2..]
  }

  /** A backslash that escapes nothing stays. */
  lemma ExpandLoneBackslash(env: Env, t: Bytes)
    requires t == [] || t[0] != BACKSLASH
    requires !LeadsClosed(t)
    ensures Expand(env, [BACKSLASH] + t) == [BACKSLASH] + Expand(env, t)
  {
    var s := [BACKSLASH] + t;
    if Refers(s, 1) {
      assert forall k :: 3 <= k < |s| ==> s[k] == t[2..][k - 3];
      FindCloseNone(s, 3);
    }
    ExpandAfter(env, [BACKSLASH], t, [BACKSLASH]);
  }

  // ----- These rules are all there is -----

  /** The documented rules, of any function on texts. */
  ghost predicate FollowsRules(env: Env, f: Bytes -> Bytes)
  {
    f([]) == [] &&
    (forall t: Bytes :: DoubledRule(f, t)) &&
    (forall t: Bytes :: LoneRule(f, t)) &&
    (forall name: Bytes, t: Bytes :: EscapedRule(f, name, t)) &&
    (forall name: Bytes, t: Bytes :: ReferenceRule(env, f, name, t)) &&
    (forall b: Byte, t: Bytes :: PlainRule(f, b, t))
  }

  /** Two backslashes make one. */
  predicate DoubledRule(f: Bytes -> Bytes, t: Bytes)
  {
    f([BACKSLASH, BACKSLASH] + t) == [BACKSLASH] + f(t)
  }

  /** A backslash that escapes nothing stays. */
  predicate LoneRule(f: Bytes -> Bytes, t: Bytes)
  {
    (t != [] && t[0] == BACKSLASH) || LeadsClosed(t) || f([BACKSLASH] + t) == [BACKSLASH] + f(t)
  }

  function Reference(name: Bytes): Bytes { [DOLLAR, OPEN] + name + [CLOSE] }

  /** An escaped reference stays, without its backslash. */
  predicate EscapedRule(f: Bytes -> Bytes, name: Bytes, t: Bytes)
  {
    CLOSE in name || f([BACKSLASH] + Reference(name) + t) == Reference(name) + f(t)
  }

  /** A reference gives its value, or stays if there is none. */
  predicate ReferenceRule(env: Env, f: Bytes -> Bytes, name: Bytes, t: Bytes)
  {
    CLOSE in name || f(Reference(name) + t) == (if env(name).Some? then env(name).value else Reference(name)) + f(t)
  }

  /** Any other byte stays. */
  predicate PlainRule(f: Bytes -> Bytes, b: Byte, t: Bytes)
  {
    b == BACKSLASH || LeadsClosed([b] + t) || f([b] + t) == [b] + f(t)
  }

  lemma ExpandFollowsRules(env: Env)
    ensures FollowsRules(env, t => Expand(env, t))
  {
    var f := t => Expand(env, t);
    assert f([]) == [];
    forall t: Bytes ensures DoubledRule(f, t) && LoneRule(f, t) {
      ExpandDoubled(env, t);
      if !(t != [] && t[0] == BACKSLASH) && !LeadsClosed(t) { ExpandLoneBackslash(env, t); }
    }
    forall name: Bytes, t: Bytes ensures EscapedRule(f, name, t) && ReferenceRule(env, f, name, t) {
      if CLOSE !in name {
        ExpandReference(env, name, t);
        ExpandEscaped(env, Reference(name), t);
      }
    }
    forall b: Byte, t: Bytes ensures PlainRule(f, b, t) { PlainFollows(env, b, t); }
  }

  lemma PlainFollows(env: Env, b: Byte, t: Bytes)
    ensures PlainRule(s => Expand(env, s), b, t)
  {
    if b != BACKSLASH && !LeadsClosed([b] + t) {
      if b == DOLLAR && t != [] && t[0] == OPEN {
        assert ([b] + t)[2..] == t[1..];
        forall k | 0 <= k < |t| ensures t[k] != CLOSE {
          if k > 0 { assert t[1..][k - 1] == t[k]; }
        }
      }
      ExpandPlain(env, b, t);
    }
  }

  /** The first closed reference of a text that leads with one. */
  lemma LeadingReference(t: Bytes) returns (name: Bytes, rest: Bytes)
    requires LeadsClosed(t)
    ensures t == Reference(name) + rest && CLOSE !in name
  {
    var k :| 0 <= k < |t[2..]| && t[2..][k] == CLOSE;
    FindCloseIsFirst(t, 2);
    assert t[k + 2] == CLOSE;
    var close := FindClose(t, 2).value;
    name, rest := t[2..close], t[close + 1..];
    assert t == t[..2] + t[2..close] + [t[close]] + t[close + 1..];
  }

  /** A function that follows the rules is the expansion: they leave nothing open. */
  lemma {:induction false} RulesDetermine(env: Env, f: Bytes -> Bytes, s: Bytes)
    requires FollowsRules(env, f)
    ensures f(s) == Expand(env, s)
    decreases |s|
  {
    ExpandFollowsRules(env);
    var g := t => Expand(env, t);
    if s == [] {
      assert g([]) == [];
    } else if s[0] == BACKSLASH {
      BackslashDetermined(env, f, s);
    } else if LeadsClosed(s) {
      var name, rest := LeadingReference(s);
      RulesDetermine(env, f, rest);
      assert ReferenceRule(env, f, name, rest) && ReferenceRule(env, g, name, rest);
    } else {
      RulesDetermine(env, f, s[1..]);
      assert s == [s[0]] + s[1..];
      assert PlainRule(f, s[0], s[1..]) && PlainRule(g, s[0], s[1..]);
    }
  }

  lemma {:induction false} BackslashDetermined(env: Env, f: Bytes -> Bytes, s: Bytes)
    requires FollowsRules(env, f) && s != [] && s[0] == BACKSLASH
    ensures f(s) == Expand(env, s)
    decreases |s|, 0
  {
    ExpandFollowsRules(env);
    var g, t := r => Expand(env, r), s[1..];
    assert s == [BACKSLASH] + t;
    if t != [] && t[0] == BACKSLASH {
      RulesDetermine(env, f, t[1..]);
      assert s == [BACKSLASH, BACKSLASH] + t[1..];
      assert DoubledRule(f, t[1..]) && DoubledRule(g, t[1..]);
    } else if LeadsClosed(t) {
      var name, rest := LeadingReference(t);
      RulesDetermine(env, f, rest);
      assert s == [BACKSLASH] + Reference(name) + rest;
      assert EscapedRule(f, name, rest) && EscapedRule(g, name, rest);
    } else {
      RulesDetermine(env, f, t);
      assert LoneRule(f, t) && LoneRule(g, t);
    }
  }

  lemma EscapedReference(env: Env, s: Bytes, i: nat)
    requires Refers(s, i) && FindClose(s, i + 2).Some?
    ensures var close := FindClose(s, i + 2).value;
            Expand(env, EscapeFrom(s, i)) == s[i..close + 1] + Expand(env, EscapeFrom(s, close + 1))
  {
    var close := FindClose(s, i + 2).value;
    FindCloseIsFirst(s, i + 2);
    ExpandEscaped(env, s[i..close + 1], EscapeFrom(s, close + 1));
  }

  lemma EscapedPlain(env: Env, s: Bytes, i: nat)
    requires i < |s| && s[i] != BACKSLASH && !(Refers(s, i) && FindClose(s, i + 2).Some?)
    ensures Expand(env, EscapeFrom(s, i)) == [s[i]] + Expand(env, EscapeFrom(s, i + 1))
  {
    EscapeHead(s, i + 1);
    if Refers(s, i) {
      assert FindClose(s, i + 1) == FindClose(s, i + 2);
      EscapeAddsNoClose(s, i + 1);
    }
    ExpandPlain(env, s[i], EscapeFrom(s, i + 1));
  }

  /** Where the escaping goes on after the step that starts at `i`. */
  function AfterStep(s: Bytes, i: nat): (next: nat)
    requires i < |s|
    ensures i < next <= |s|
  {
    if s[i] != BACKSLASH && Refers(s, i) && FindClose(s, i + 2).Some? then FindClose(s, i + 2).value + 1 else i + 1
  }

  /** `expand` undoes one step of the escaping. */
  ghost predicate Undoes(expand: Bytes -> Bytes, s: Bytes, i: nat)
    requires i < |s|
  {
    expand(EscapeFrom(s, i)) == s[i..AfterStep(s, i)] + expand(EscapeFrom(s, AfterStep(s, i)))
  }

  lemma {:induction false} UndoesAll(expand: Bytes -> Bytes, s: Bytes, i: nat)
    requires i <= |s| && expand([]) == [] && forall k :: 0 <= k < |s| ==> Undoes(expand, s, k)
    ensures expand(EscapeFrom(s, i)) == s[i..]
    decreases |s| - i
  {
    if i < |s| {
      assert Undoes(expand, s, i);
      var next := AfterStep(s, i);
      UndoesAll(expand, s, next);
      assert s[i..] == s[i..next] + s[next..];
    }
  }

  lemma ExpandUndoes(env: Env, s: Bytes, i: nat)
    requires i < |s|
    ensures Undoes(t => Expand(env, t), s, i)
  {
    if s[i] == BACKSLASH {
      ExpandDoubled(env, EscapeFrom(s, i + 1));
    } else if Refers(s, i) && FindClose(s, i + 2).Some? {
      EscapedReference(env, s, i);
    } else {
      EscapedPlain(env, s, i);
    }
  }

  /** For every text there is one that expands to it whatever the environment. */
  lemma EveryLiteralIsExpressible(env: Env, s: Bytes)
    ensures Expand(env, Escape(s)) == s
  {
    var expand := t => Expand(env, t);
    forall k | 0 <= k < |s| ensures Undoes(expand, s, k) { ExpandUndoes(env, s, k); }
    assert expand([]) == [];
    UndoesAll(expand, s, 0);
    assert s[0..] == s;
  }

  // ----- The scanner, on UTF-8 text -----

  predicate Continues(b: Byte) { 128 <= b < 192 }

  /** The length of the character a byte starts. */
  function CharLen(b: Byte): nat
  {
    if b < 192 then 1 else if b < 224 then 2 else if b < 240 then 3 else 4
  }

  /** Characters follow each other from `i` to the end. */
  predicate Utf8From(s: Bytes, i: nat)
    requires i <= |s|
    decreases |s| - i
  {
    i == |s| ||
    (!Continues(s[i]) && i + CharLen(s[i]) <= |s| &&
     (forall k :: i < k < i + CharLen(s[i]) ==> Continues(s[k])) && Utf8From(s, i + CharLen(s[i])))
  }

  /** Where text may be cut. */
  predicate Boundary(s: Bytes, i: nat)
  {
    i == |s| || (i < |s| && !Continues(s[i]))
  }

  /** Characters follow each other from every boundary on. */
  lemma {:induction false} FromBoundary(s: Bytes, i: nat, j: nat)
    requires i <= j <= |s| && Utf8From(s, i) && Boundary(s, j)
    ensures Utf8From(s, j)
    decreases |s| - i
  {
    if i < j {
      assert forall k :: i < k < i + CharLen(s[i]) ==> Continues(s[k]);
      FromBoundary(s, i + CharLen(s[i]), j);
    }
  }

  /** After a one-byte character comes a boundary. */
  lemma AfterAscii(s: Bytes, i: nat)
    requires i < |s| && Utf8From(s, i) && s[i] < 128
    ensures Boundary(s, i + 1) && Utf8From(s, i + 1)
  {
  }

  /** A character that starts nothing goes to the output as it is. */
  lemma CopiesWhole(env: Env, s: Bytes, i: nat)
    requires i < |s| && Utf8From(s, i) && Token(env, s, i) == ([s[i]], i + 1)
    ensures i + CharLen(s[i]) <= |s|
    ensures var a := ScannerOf(env, s);
            Scan(a, |s|, i) == s[i..i + CharLen(s[i])] + Scan(a, |s|, i + CharLen(s[i]))
  {
    var a := ScannerOf(env, s);
    forall k: nat | i <= k < i + CharLen(s[i]) ensures a(k) == ([s[k]], k + 1) {
    }
    ScanCopies(a, |s|, s, i, i + CharLen(s[i]));
  }

  /** A cut of the text, allowed only between characters. */
  method Cut(s: Bytes, i: nat, j: nat) returns (r: Bytes)
    requires i <= j <= |s| && Boundary(s, i) && Boundary(s, j)
    ensures r == s[i..j]
  {
    r := s[i..j];
  }

  /** The text at `i` gives `piece` and goes on at `next`, between characters. */
  ghost predicate Scans(env: Env, input: Bytes, i: nat, piece: Bytes, next: nat)
    requires i < |input|
  {
    i < next <= |input| && Utf8From(input, next) &&
    Scan(ScannerOf(env, input), |input|, i) == piece + Scan(ScannerOf(env, input), |input|, next)
  }

  lemma TokenScans(env: Env, input: Bytes, i: nat, piece: Bytes, next: nat)
    requires i < |input| && (piece, next) == Token(env, input, i) && Utf8From(input, next)
    ensures Scans(env, input, i, piece, next)
  {
    assert ScannerOf(env, input)(i) == (piece, next);
  }

  /** A character that starts nothing. */
  method ScanCharacter(env: Env, input: Bytes, i: nat) returns (piece: Bytes, next: nat)
    requires i < |input| && Utf8From(input, i) && Token(env, input, i) == ([input[i]], i + 1)
    ensures Scans(env, input, i, piece, next)
  {
    CopiesWhole(env, input, i);
    next := i + CharLen(input[i]);
    piece := Cut(input, i, next);
  }

  /** A backslash and what it escapes. */
  method ScanEscape(env: Env, input: Bytes, i: nat) returns (piece: Bytes, next: nat)
    requires i < |input| && Utf8From(input, i) && input[i] == BACKSLASH
    ensures Scans(env, input, i, piece, next)
  {
    var len := |input|;
    AfterAscii(input, i);
    if i + 1 < len && input[i + 1] == BACKSLASH {
      AfterAscii(input, i + 1);
      TokenScans(env, input, i, [BACKSLASH], i + 2);
      return [BACKSLASH], i + 2;
    }
    if i + 2 < len && input[i + 1] == DOLLAR && input[i + 2] == OPEN {
      var close := FindClose(input, i + 3);
      if close.Some? {
        FromBoundary(input, i, close.value);
        AfterAscii(input, close.value);
        piece := Cut(input, i + 1, close.value + 1);
        TokenScans(env, input, i, piece, close.value + 1);
        return piece, close.value + 1;
      }
    }
    TokenScans(env, input, i, [BACKSLASH], i + 1);
    return [BACKSLASH], i + 1;
  }

  /** A reference that is closed at `close`. */
  method ScanReference(env: Env, input: Bytes, i: nat, close: nat) returns (piece: Bytes, next: nat)
    requires i < |input| && Utf8From(input, i) && Refers(input, i) && FindClose(input, i + 2) == Some(close)
    ensures Scans(env, input, i, piece, next)
  {
    AfterAscii(input, i);
    AfterAscii(input, i + 1);
    FromBoundary(input, i, close);
    AfterAscii(input, close);
    var name := Cut(input, i + 2, close);
    var value := env(name);
    if value.Some? {
      piece := value.value;
    } else {
      piece := Cut(input, i, close + 1);
    }
    next := close + 1;
    TokenScans(env, input, i, piece, next);
  }

  /** One turn of the scanner's loop. */
  method ScanNext(env: Env, input: Bytes, i: nat) returns (piece: Bytes, next: nat)
    requires i < |input| && Utf8From(input, i)
    ensures Scans(env, input, i, piece, next)
  {
    if input[i] == BACKSLASH {
      piece, next := ScanEscape(env, input, i);
      return;
    }
    if input[i] == DOLLAR && i + 1 < |input| && input[i + 1] == OPEN {
      var close := FindClose(input, i + 2);
      if close.Some? {
        piece, next := ScanReference(env, input, i, close.value);
        return;
      }
    }
    piece, next := ScanCharacter(env, input, i);
  }

  method ExpandVars(env: Env, input: Bytes) returns (out: Bytes)
    requires Utf8From(input, 0)
    ensures out == Expand(env, input)
  {
    out := [];
    var i := 0;
    while i < |input|
      invariant i <= |input| && Utf8From(input, i)
      invariant out + Scan(ScannerOf(env, input), |input|, i) == Expand(env, input)
      decreases |input| - i
    {
      var piece, next := ScanNext(env, input, i);
      ghost var rest := Scan(ScannerOf(env, input), |input|, next);
      assert out + (piece + rest) == (out + piece) + rest;
      out := out + piece;
      i := next;
    }
  }

  // ----- Escaped text is text -----

  /** What follows a prefix is text as it was. */
  lemma {:induction false} TextAfter(p: Bytes, t: Bytes, i: nat)
    requires i <= |t| && Utf8From(t, i)
    ensures Utf8From(p + t, |p| + i)
    decreases |t| - i
  {
    if i < |t| {
      var n := CharLen(t[i]);
      TextAfter(p, t, i + n);
      forall k | |p| + i < k < |p| + i + n ensures Continues((p + t)[k]) { assert (p + t)[k] == t[k - |p|]; }
    }
  }

  lemma SliceInTwo(s: Bytes, i: nat, m: nat, j: nat, t: Bytes)
    requires i <= m <= j <= |s|
    ensures s[i..j] + t == s[i..m] + (s[m..j] + t)
  {
    assert s[i..j] == s[i..m] + s[m..j];
  }

  /** A character, then text, is text. */
  lemma CharacterFirst(c: Bytes, t: Bytes)
    requires c != [] && !Continues(c[0]) && |c| == CharLen(c[0]) && forall k :: 0 < k < |c| ==> Continues(c[k])
    requires Utf8From(t, 0)
    ensures Utf8From(c + t, 0)
  {
    TextAfter(c, t, 0);
    assert (c + t)[0] == c[0];
    forall k | 0 < k < |c| ensures Continues((c + t)[k]) { assert (c + t)[k] == c[k]; }
  }

  /** A stretch of text between two boundaries, then other text, is text. */
  lemma {:induction false} Splice(s: Bytes, i: nat, j: nat, t: Bytes)
    requires i <= j <= |s| && Utf8From(s, i) && Boundary(s, j) && Utf8From(t, 0)
    ensures Utf8From(s[i..j] + t, 0)
    decreases j - i
  {
    if i == j {
      assert s[i..j] + t == t;
    } else {
      var n := CharLen(s[i]);
      assert i + n <= j by { assert forall k :: i < k < i + n ==> Continues(s[k]); }
      Splice(s, i + n, j, t);
      CharacterFirst(s[i..i + n], s[i + n..j] + t);
      SliceInTwo(s, i, i + n, j, t);
    }
  }

  lemma EscapeHigh(s: Bytes, i: nat)
    requires i < |s| && s[i] >= 128
    ensures EscapeFrom(s, i) == [s[i]] + EscapeFrom(s, i + 1)
  {
  }

  /** The bytes of a longer character are escaped as they are. */
  lemma {:induction false} EscapeCopies(s: Bytes, i: nat, j: nat)
    requires i <= j <= |s| && forall k :: i <= k < j ==> s[k] >= 128
    ensures EscapeFrom(s, i) == s[i..j] + EscapeFrom(s, j)
    decreases j - i
  {
    if i < j {
      EscapeCopies(s, i + 1, j);
      SliceInTwo(s, i, i + 1, j, EscapeFrom(s, j));
      EscapeHigh(s, i);
      assert s[i..i + 1] == [s[i]];
    }
  }

  lemma AsciiFirst(b: Byte, t: Bytes)
    requires b < 128 && Utf8From(t, 0)
    ensures Utf8From([b] + t, 0)
  {
    TextAfter([b], t, 0);
  }

  lemma {:induction false} EscapedIsText(s: Bytes, i: nat)
    requires i <= |s| && Utf8From(s, i)
    ensures Utf8From(EscapeFrom(s, i), 0)
    decreases |s| - i
  {
    if i < |s| {
      if s[i] == BACKSLASH {
        AfterAscii(s, i);
        EscapedIsText(s, i + 1);
        AsciiFirst(BACKSLASH, EscapeFrom(s, i + 1));
        AsciiFirst(BACKSLASH, [BACKSLASH] + EscapeFrom(s, i + 1));
        assert [BACKSLASH, BACKSLASH] + EscapeFrom(s, i + 1) == [BACKSLASH] + ([BACKSLASH] + EscapeFrom(s, i + 1));
      } else if Refers(s, i) && FindClose(s, i + 2).Some? {
        ReferenceIsText(s, i, FindClose(s, i + 2).value);
      } else {
        var n := CharLen(s[i]);
        EscapedIsText(s, i + n);
        Splice(s, i, i + n, EscapeFrom(s, i + n));
        if n == 1 { assert s[i..i + 1] == [s[i]]; } else { EscapeCopies(s, i, i + n); }
      }
    }
  }

  lemma {:induction false} ReferenceIsText(s: Bytes, i: nat, close: nat)
    requires i < |s| && Utf8From(s, i) && Refers(s, i) && FindClose(s, i + 2) == Some(close)
    ensures Utf8From(EscapeFrom(s, i), 0)
    decreases |s| - i, 0
  {
    FromBoundary(s, i, close);
    AfterAscii(s, close);
    EscapedIsText(s, close + 1);
    var rest := EscapeFrom(s, close + 1);
    Splice(s, i, close + 1, rest);
    AsciiFirst(BACKSLASH, s[i..close + 1] + rest);
    assert [BACKSLASH] + s[i..close + 1] + rest == [BACKSLASH] + (s[i..close + 1] + rest);
  }

  /** The scanner gives any text back from its escaped form, in any environment. */
  method ExpandEscapedText(env: Env, s: Bytes) returns (out: Bytes)
    requires Utf8From(s, 0)
    ensures Utf8From(Escape(s), 0) && out == s
  {
    EscapedIsText(s, 0);
    EveryLiteralIsExpressible(env, s);
    out := ExpandVars(env, Escape(s));
  }
}
