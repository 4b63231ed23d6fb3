/** transform_camera: a spec string read one character at a time as azimuth, elevation or roll
    calls on a camera, after lower-casing. */
module CameraRig {
  import opened Base
  import opened Vtk

  /** The camera argument as the function receives it: None, a string, or some other value,
      which Python tests for truthiness before its type. */
  datatype SpecArg = NoSpec | Text(s: string) | Other(truthy: bool)

  /** Python's truth value of the argument. */
  predicate Truthy(spec: SpecArg) {
    match spec
    case NoSpec => false
    case Text(s) => |s| > 0
    case Other(t) => t
  }

  predicate IsUpper(c: char) { 'A' <= c <= 'Z' }

  predicate IsLower(c: char) { 'a' <= c <= 'z' }

  /** str.lower on one character, for the ASCII letters: no upper-case letter is left, letters
      stay letters, and nothing else changes. */
  function LowerChar(c: char): (d: char)
    ensures !IsUpper(d)
    ensures IsLower(d) <==> IsLower(c) || IsUpper(c)
    ensures IsUpper(c) ==> d as int == c as int + 32
    ensures !IsUpper(c) ==> d == c
  {
    if IsUpper(c) then (c as int + 32) as char else c
  }

  /** str.lower: the same length, and no upper-case letter left. */
  function LowerStr(s: string): (t: string)
    ensures |t| == |s|
    ensures forall i :: 0 <= i < |t| ==> !IsUpper(t[i])
    ensures forall i :: 0 <= i < |t| ==> (IsLower(t[i]) <==> IsLower(s[i]) || IsUpper(s[i]))
    ensures forall i :: 0 <= i < |t| && IsUpper(s[i]) ==> t[i] as int == s[i] as int + 32
    ensures forall i :: 0 <= i < |t| && !IsUpper(s[i]) ==> t[i] == s[i]
  {
    seq(|s|, i requires 0 <= i < |s| => LowerChar(s[i]))
  }

  /** Lower-casing twice is lower-casing once. */
  lemma LowerIdempotent(s: string)
    ensures LowerStr(LowerStr(s)) == LowerStr(s)
  {
    var t := LowerStr(s);
    assert forall i :: 0 <= i < |t| ==> LowerStr(t)[i] == t[i];
  }

  /** c and d are the same character up to ASCII letter case. */
  predicate SameUpToCase(c: char, d: char) {
    c == d || (IsUpper(c) && d as int == c as int + 32) || (IsUpper(d) && c as int == d as int + 32)
  }

  /** The characters transform_camera accepts once lower-cased. */
  predicate ValidChar(c: char) {
    c == 'a' || c == 'e' || c == 'r'
  }

  /** The camera call for one lower-cased spec character, or None for a character that raises. */
  function CharCall(c: char, angle: real): (r: Option<CameraOp>)
    ensures r.Some? <==> ValidChar(c)
  {
    if c == 'e' then Some(Elevation(angle))
    else if c == 'r' then Some(Roll(angle))
    else if c == 'a' then Some(Azimuth(angle))
    else None
  }

  /** Every character of t is one of a, e, r. */
  predicate SpecValid(t: string) {
    forall i :: 0 <= i < |t| ==> ValidChar(t[i])
  }

  /** The calls the loop makes on t before it finishes or meets its first bad character. */
  function CameraCalls(t: string, angle: real): seq<CameraOp> {
    if t == [] then []
    else match CharCall(t[0], angle)
      case None => []
      case Some(op) => [op] + CameraCalls(t[1..], angle)
  }

  /** The calls made on the camera for an argument, including those made before a raise. */
  function AppliedCalls(spec: SpecArg, angle: real): seq<CameraOp> {
    if Truthy(spec) && spec.Text? then CameraCalls(LowerStr(spec.s), angle) else []
  }

  /** Whether transform_camera returns or raises, and with what. */
  function SpecOutcome(spec: SpecArg): Outcome {
    if !Truthy(spec) then Pass
    else if !spec.Text? then Fail(SpecNotString)
    else if SpecValid(LowerStr(spec.s)) then Pass
    else Fail(InvalidCameraSpec)
  }

  /** The calls of a spec made of valid characters are followed by those of what comes after it. */
  lemma {:induction false} CallsAppend(a: string, b: string, angle: real)
    requires SpecValid(a)
    ensures CameraCalls(a + b, angle) == CameraCalls(a, angle) + CameraCalls(b, angle)
  {
    if a != [] {
      assert ValidChar(a[0]);
      assert SpecValid(a[1..]) by {
        forall i | 0 <= i < |a[1..]| ensures ValidChar(a[1..][i]) {
          assert a[1..][i] == a[i + 1];
        }
      }
      assert (a + b)[0] == a[0];
      assert (a + b)[1..] == a[1..] + b;
      CallsAppend(a[1..], b, angle);
    } else {
      assert a + b == b;
    }
  }

  /** One more valid character adds its call at the end. */
  lemma CallsSnoc(t: string, i: nat, angle: real)
    requires i < |t| && SpecValid(t[..i]) && ValidChar(t[i])
    ensures SpecValid(t[..i + 1])
    ensures CameraCalls(t[..i + 1], angle) == CameraCalls(t[..i], angle) + [CharCall(t[i], angle).value]
  {
    assert t[..i + 1] == t[..i] + [t[i]];
    CallsAppend(t[..i], [t[i]], angle);
    assert CameraCalls([t[i]], angle) == [CharCall(t[i], angle).value] by {
      assert [t[i]][1..] == [];
    }
  }

  /** The first invalid character ends the calls and makes the whole spec invalid. */
  lemma CallsStopAt(t: string, i: nat, angle: real)
    requires i < |t| && SpecValid(t[..i]) && !ValidChar(t[i])
    ensures CameraCalls(t, angle) == CameraCalls(t[..i], angle) && !SpecValid(t)
  {
    assert t == t[..i] + t[i..];
    CallsAppend(t[..i], t[i..], angle);
    assert t[i..][0] == t[i];
  }

  /** The calls correspond one to one with the leading valid characters, and stop exactly at
      the first invalid one; there are as many calls as characters iff the spec is valid. */
  lemma {:induction false} CallsMatchCharacters(t: string, angle: real)
    ensures var calls := CameraCalls(t, angle);
      |calls| <= |t| &&
      (forall i :: 0 <= i < |calls| ==> CharCall(t[i], angle) == Some(calls[i])) &&
      (|calls| < |t| ==> CharCall(t[|calls|], angle) == None) &&
      (|calls| == |t| <==> SpecValid(t))
  {
    if t != [] {
      CallsMatchCharacters(t[1..], angle);
      var calls := CameraCalls(t, angle);
      if CharCall(t[0], angle).Some? {
        assert calls[1..] == CameraCalls(t[1..], angle);
        forall i | 0 <= i < |calls| ensures CharCall(t[i], angle) == Some(calls[i]) {
          if i > 0 {
            assert t[i] == t[1..][i - 1];
          }
        }
        if SpecValid(t) {
          assert SpecValid(t[1..]) by {
            forall i | 0 <= i < |t[1..]| ensures ValidChar(t[1..][i]) {
              assert t[1..][i] == t[i + 1];
            }
          }
        }
        if SpecValid(t[1..]) {
          forall i | 0 <= i < |t| ensures ValidChar(t[i]) {
            if i > 0 {
              assert t[i] == t[1..][i - 1];
            }
          }
        }
      } else {
        assert !SpecValid(t) by {
          assert !ValidChar(t[0]);
        }
      }
    }
  }

  /** Upper- and lower-case letters give the same calls. */
  lemma CaseInsensitive(s: string, angle: real)
    ensures AppliedCalls(Text(s), angle) == AppliedCalls(Text(LowerStr(s)), angle)
    ensures SpecOutcome(Text(s)) == SpecOutcome(Text(LowerStr(s)))
  {
    LowerIdempotent(s);
  }

  /** Two specs that differ only in the case of their letters make the same calls with the same
      outcome: an upper-case A, E or R acts as a, e or r. */
  lemma CaseVariants(s: string, u: string, angle: real)
    requires |s| == |u| && forall i :: 0 <= i < |s| ==> SameUpToCase(s[i], u[i])
    ensures LowerStr(s) == LowerStr(u)
    ensures AppliedCalls(Text(s), angle) == AppliedCalls(Text(u), angle)
    ensures SpecOutcome(Text(s)) == SpecOutcome(Text(u))
  {
    assert forall i :: 0 <= i < |s| ==> LowerStr(s)[i] == LowerStr(u)[i];
  }

  /** Calls follow the spec's order: "ae" and "ea" make the same two calls the other way round,
      and a bad character raises after the calls to its left. */
  lemma SpecOrder(angle: real)
    ensures AppliedCalls(Text("ae"), angle) == [Azimuth(angle), Elevation(angle)]
    ensures AppliedCalls(Text("Ea"), angle) == [Elevation(angle), Azimuth(angle)]
    ensures AppliedCalls(Text("axe"), angle) == [Azimuth(angle)]
    ensures SpecOutcome(Text("axe")) == Fail(InvalidCameraSpec)
  {
    assert LowerStr("ae") == "ae";
    assert CameraCalls("e", angle) == [Elevation(angle)] by { assert "e"[1..] == []; }
    assert "ae"[1..] == "e";
    assert LowerStr("Ea") == "ea";
    assert CameraCalls("a", angle) == [Azimuth(angle)] by { assert "a"[1..] == []; }
    assert "ea"[1..] == "a";
    assert LowerStr("axe") == "axe";
    assert "axe"[1..] == "xe";
    assert CameraCalls("xe", angle) == [] by { assert !ValidChar("xe"[0]); }
    assert !SpecValid("axe") by {
      assert !ValidChar("axe"[1]);
    }
  }

  /** An absent or empty spec, or any other falsy value, makes no camera calls and returns;
      a truthy value that is not a string raises TypeError before any call. */
  lemma NoCallsWithoutText(spec: SpecArg, angle: real)
    requires !Truthy(spec) || !spec.Text?
    ensures AppliedCalls(spec, angle) == []
    ensures SpecOutcome(spec) == if Truthy(spec) then Fail(SpecNotString) else Pass
  {
  }

  /** Applies the spec to the camera, one call per character; the first bad character raises,
      leaving the calls for the characters before it applied. */
  method TransformCamera(camera: Camera, transform: SpecArg, angle: real) returns (res: Outcome)
    modifies camera
    ensures res == SpecOutcome(transform)
    ensures camera.ops == old(camera.ops) + AppliedCalls(transform, angle)
  {
    if !Truthy(transform) {
      return Pass;
    }
    if !transform.Text? {
      return Fail(SpecNotString);
    }
    var t := LowerStr(transform.s);
    var i := 0;
    while i < |t|
      invariant 0 <= i <= |t|
      invariant SpecValid(t[..i])
      invariant camera.ops == old(camera.ops) + CameraCalls(t[..i], angle)
    {
      var c := t[i];
      if !ValidChar(c) {
        CallsStopAt(t, i, angle);
      } else {
        CallsSnoc(t, i, angle);
      }
      if c == 'e' {
        camera.Elevation(angle);
      } else if c == 'r' {
        camera.Roll(angle);
      } else if c == 'a' {
        camera.Azimuth(angle);
      } else {
        return Fail(InvalidCameraSpec);
      }
      i := i + 1;
    }
    assert t[..i] == t;
    return Pass;
  }
}
