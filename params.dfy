/**
  Parameters of a robot-interface device and the driver configuration built
  from them (Device::Private::paramsAsProperty): the canonical `device`/`id`
  entries, one textual `(name value)` group per parameter, and the
  parenthesis-balance scan that only warns.
 */
module Params {

  /** One configuration parameter of a device, as written in its XML description. */
  datatype Param = Param(name: string, value: string)

  /** One step applied to the driver's configuration record, in order:
      `Put` sets a key (Property::put), `FromString` appends a textual group
      (Property::fromString without wiping). */
  datatype ConfigStep = Put(key: string, value: string) | FromString(text: string)

  /** The configuration handed to the driver's open, as the steps that built it. */
  type Property = seq<ConfigStep>

  /** The textual group appended for one parameter. */
  function GroupText(p: Param): string
  {
    "(" + p.name + " " + p.value + ")"
  }

  /** How one character moves the nesting depth. */
  function Step(c: char): int
  {
    if c == '(' then 1 else if c == ')' then -1 else 0
  }

  /** Net nesting depth at the end of `s`, counted left to right. */
  function Depth(s: string): int
  {
    if s == [] then 0 else Depth(s[..|s| - 1]) + Step(s[|s| - 1])
  }

  /** `s` is a balanced parenthesis string: no prefix closes more than it
      opened, and the whole string closes everything it opened. */
  predicate Balanced(s: string)
  {
    (forall k | 0 <= k <= |s| :: Depth(s[..k]) >= 0) && Depth(s) == 0
  }

  /** Some prefix of `s` closes more parentheses than it opened. */
  predicate GoesNegative(s: string)
  {
    exists k | 0 <= k <= |s| :: Depth(s[..k]) < 0
  }

  predicate NoParens(s: string)
  {
    forall i | 0 <= i < |s| :: s[i] != '(' && s[i] != ')'
  }

  /** The balance scan of one parameter value: the counter loop stops as soon
      as the depth goes negative (it then stands at -1), otherwise it ends with
      the net depth. A non-zero counter is what triggers the warning, which
      happens exactly when the value is not balanced. */
  method ParenBalance(value: string) returns (counter: int)
    ensures counter == 0 <==> Balanced(value)
    ensures counter < 0 <==> GoesNegative(value)
    ensures counter < 0 ==> counter == -1
    ensures counter >= 0 ==> counter == Depth(value)
  {
    counter := 0;
    var i := 0;
    while i < |value| && counter >= 0
      invariant 0 <= i <= |value|
      invariant counter == Depth(value[..i])
      invariant forall k | 0 <= k < i :: Depth(value[..k]) >= 0
      invariant counter >= -1
    {
      assert value[..i + 1][..i] == value[..i];
      if value[i] == '(' {
        counter := counter + 1;
      } else if value[i] == ')' {
        counter := counter - 1;
      }
      i := i + 1;
    }
    if counter >= 0 {
      assert i == |value| && value[..i] == value;
      assert forall k | 0 <= k <= |value| :: Depth(value[..k]) >= 0;
    } else {
      assert Depth(value[..i]) < 0;
    }
  }

  /** The configuration `prop` is the one built for a device of type `deviceType`
      named `name` from the (already merged) parameters `ps`: `device` and `id`
      come first, then one group per parameter in list order, balanced or not. */
  predicate ConfigFor(prop: Property, deviceType: string, name: string, ps: seq<Param>)
  {
    && |prop| == 2 + |ps|
    && prop[0] == Put("device", deviceType)
    && prop[1] == Put("id", name)
    && forall i | 0 <= i < |ps| :: prop[2 + i] == FromString(GroupText(ps[i]))
  }

  /** Depth is additive over concatenation. */
  lemma {:induction false} DepthConcat(a: string, b: string)
    ensures Depth(a + b) == Depth(a) + Depth(b)
  {
    if b != [] {
      DepthConcat(a, b[..|b| - 1]);
      assert (a + b)[..|a + b| - 1] == a + b[..|b| - 1];
    } else {
      assert a + b == a;
    }
  }

  /** A string without parentheses never moves the depth. */
  lemma {:induction false} NoParensDepth(s: string)
    requires NoParens(s)
    ensures forall k | 0 <= k <= |s| :: Depth(s[..k]) == 0
  {
    if s != [] {
      var t := s[..|s| - 1];
      NoParensDepth(t);
      forall k | 0 <= k <= |s| ensures Depth(s[..k]) == 0 {
        if k < |s| {
          assert s[..k] == t[..k];
        } else {
          assert s[..k][..k - 1] == t[..|t|];
        }
      }
    }
  }

  /** When the scan does not warn (the value is balanced) and the parameter
      name has no parentheses, the group handed to the configuration parser is
      itself balanced. */
  lemma BalancedValueGivesBalancedGroup(p: Param)
    requires NoParens(p.name)
    requires Balanced(p.value)
    ensures Balanced(GroupText(p))
  {
    var tag := p.name + " ";
    assert NoParens(tag);
    var head := "(" + tag;
    var g := GroupText(p);
    assert g == head + p.value + ")";
    NoParensDepth(tag);
    assert tag[..|tag|] == tag;
    assert p.value[..|p.value|] == p.value;
    assert Depth("(") == 1 by { assert "("[..0] == []; }
    assert Depth(")") == -1 by { assert ")"[..0] == []; }
    DepthConcat("(", tag);
    assert Depth(g) == 0 by {
      DepthConcat(head + p.value, ")");
      DepthConcat(head, p.value);
    }
    forall k | 0 <= k <= |g| ensures Depth(g[..k]) >= 0 {
      if k == 0 {
      } else if k <= |head| {
        assert g[..k] == "(" + tag[..k - 1];
        DepthConcat("(", tag[..k - 1]);
      } else if k <= |head| + |p.value| {
        assert g[..k] == head + p.value[..k - |head|];
        DepthConcat(head, p.value[..k - |head|]);
      } else {
        assert g[..k] == g;
      }
    }
  }
}
