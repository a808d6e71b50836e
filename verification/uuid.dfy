/**
 The client's UUID generator (mcs.js `uuid`): every `x` of the template
 `xxxxxxxx-xxxx-4xxx-yxxx-xxxxxxxxxxxx` becomes a random hex digit and the
 `y` becomes one of `8`, `9`, `a`, `b`. The random draws (`Math.random() * 16 | 0`,
 one per placeholder, left to right) are a parameter. Also the process-wide
 device id that is persisted under a fixed key.
 */
module Uuid {
  import opened JsValues

  const Template: string := "xxxxxxxx-xxxx-4xxx-yxxx-xxxxxxxxxxxx"

  predicate IsPlaceholder(c: char)
  {
    c == 'x' || c == 'y'
  }

  /** A random draw `Math.random() * 16 | 0`. */
  predicate IsNibble(r: int)
  {
    0 <= r < 16
  }

  predicate AllNibbles(rs: seq<int>)
  {
    forall i :: 0 <= i < |rs| ==> IsNibble(rs[i])
  }

  /** Lower-case hexadecimal digits, as `v.toString(16)` writes them. */
  predicate IsHexDigit(c: char)
  {
    '0' <= c <= '9' || 'a' <= c <= 'f'
  }

  function HexChar(v: int): (c: char)
    requires IsNibble(v)
  {
    if v < 10 then ('0' as int + v) as char else ('a' as int + v - 10) as char
  }

  function HexValue(c: char): (v: int)
    requires IsHexDigit(c)
  {
    if c <= '9' then c as int - '0' as int else c as int - 'a' as int + 10
  }

  lemma HexRoundTrip(v: int, c: char)
    ensures IsNibble(v) ==> IsHexDigit(HexChar(v)) && HexValue(HexChar(v)) == v
    ensures IsHexDigit(c) ==> IsNibble(HexValue(c)) && HexChar(HexValue(c)) == c
  {
  }

  /** `r & 0x3 | 0x8`: the variant digit. */
  function VariantNibble(r: int): (v: int)
    requires IsNibble(r)
    ensures 8 <= v < 12
    ensures 8 <= r < 12 ==> v == r
  {
    ((r as bv8 & 0x3) | 0x8) as int
  }

  predicate IsVariantDigit(c: char)
  {
    c == '8' || c == '9' || c == 'a' || c == 'b'
  }

  /** The number of placeholders in a template: the random draws it consumes. */
  function Slots(t: string): nat
  {
    if t == [] then 0 else (if IsPlaceholder(t[0]) then 1 else 0) + Slots(t[1..])
  }

  /** `s` is what filling `t` can produce: same length, fixed characters kept,
      hex digits at `x`, variant digits at `y`. */
  predicate Instance(t: string, s: string)
  {
    && |s| == |t|
    && forall i :: 0 <= i < |t| ==>
         && (t[i] == 'x' ==> IsHexDigit(s[i]))
         && (t[i] == 'y' ==> IsVariantDigit(s[i]))
         && (!IsPlaceholder(t[i]) ==> s[i] == t[i])
  }

  /** `t.replace(/[xy]/g, ...)` with the draws `rs`, consumed left to right. */
  function Fill(t: string, rs: seq<int>): (s: string)
    requires |rs| == Slots(t) && AllNibbles(rs)
    ensures Instance(t, s)
  {
    if t == [] then []
    else if t[0] == 'x' then [HexChar(rs[0])] + Fill(t[1..], rs[1..])
    else if t[0] == 'y' then [HexChar(VariantNibble(rs[0]))] + Fill(t[1..], rs[1..])
    else [t[0]] + Fill(t[1..], rs)
  }

  /** The draws that fill `t` to produce `s`: the hex value of each placeholder position. */
  function Draws(t: string, s: string): (rs: seq<int>)
    requires Instance(t, s)
    ensures |rs| == Slots(t) && AllNibbles(rs)
  {
    if t == [] then []
    else
      assert Instance(t[1..], s[1..]) by {
        forall i | 0 <= i < |t[1..]| ensures t[1..][i] == t[i + 1] && s[1..][i] == s[i + 1] { }
      }
      if IsPlaceholder(t[0]) then
        assert IsHexDigit(s[0]) by { assert t[0] == t[0 + 0]; }
        HexRoundTrip(0, s[0]);
        [HexValue(s[0])] + Draws(t[1..], s[1..])
      else Draws(t[1..], s[1..])
  }

  /** Every string of the template's shape is generated by some draws: the
      shape is exactly the set of possible outputs. */
  lemma {:induction false} FillDraws(t: string, s: string)
    requires Instance(t, s)
    ensures Fill(t, Draws(t, s)) == s
    decreases |t|
  {
    if t != [] {
      assert Instance(t[1..], s[1..]) by {
        forall i | 0 <= i < |t[1..]| ensures t[1..][i] == t[i + 1] && s[1..][i] == s[i + 1] { }
      }
      FillDraws(t[1..], s[1..]);
      assert t[0] == t[0 + 0];
      if IsPlaceholder(t[0]) {
        HexRoundTrip(0, s[0]);
        assert Draws(t, s) == [HexValue(s[0])] + Draws(t[1..], s[1..]);
        assert Draws(t, s)[1..] == Draws(t[1..], s[1..]);
      } else {
        assert Draws(t, s) == Draws(t[1..], s[1..]);
      }
      assert s == [s[0]] + s[1..];
    }
  }

  /** A version-4 UUID in the textual form the source produces. */
  predicate IsV4(s: string)
  {
    && |s| == 36
    && forall i :: 0 <= i < 36 ==>
         if i == 8 || i == 13 || i == 18 || i == 23 then s[i] == '-'
         else if i == 14 then s[i] == '4'
         else if i == 19 then IsVariantDigit(s[i])
         else IsHexDigit(s[i])
  }

  /** The character the template holds at position `i`. */
  function TemplateAt(i: int): char
  {
    if i == 8 || i == 13 || i == 18 || i == 23 then '-'
    else if i == 14 then '4'
    else if i == 19 then 'y'
    else 'x'
  }

  function Xs(n: nat): string
  {
    seq(n, _ => 'x')
  }

  lemma {:induction false} SlotsAppend(a: string, b: string)
    ensures Slots(a + b) == Slots(a) + Slots(b)
  {
    if a == [] {
      assert a + b == b;
    } else {
      assert (a + b)[0] == a[0];
      assert (a + b)[1..] == a[1..] + b;
      SlotsAppend(a[1..], b);
    }
  }

  lemma {:induction false} SlotsXs(n: nat)
    ensures Slots(Xs(n)) == n
  {
    if n > 0 {
      assert Xs(n)[1..] == Xs(n - 1);
      SlotsXs(n - 1);
    }
  }

  lemma TemplateIsSegmented()
    ensures Template == Xs(8) + "-" + Xs(4) + "-4" + Xs(3) + "-y" + Xs(3) + "-" + Xs(12)
  {
    var segmented := Xs(8) + "-" + Xs(4) + "-4" + Xs(3) + "-y" + Xs(3) + "-" + Xs(12);
    assert |segmented| == 36 && forall i :: 0 <= i < 36 ==> segmented[i] == TemplateAt(i);
  }

  lemma TemplateChars()
    ensures |Template| == 36
    ensures forall i :: 0 <= i < 36 ==> Template[i] == TemplateAt(i)
  {
    TemplateIsSegmented();
  }

  lemma TemplateSlots()
    ensures Slots(Template) == 31
  {
    TemplateIsSegmented();
    SlotsXs(8); SlotsXs(4); SlotsXs(3); SlotsXs(12);
    assert Slots("-") == 0 && Slots("-4") == 0 && Slots("-y") == 1;
    var a := Xs(8);
    SlotsAppend(a, "-"); a := a + "-";
    SlotsAppend(a, Xs(4)); a := a + Xs(4);
    SlotsAppend(a, "-4"); a := a + "-4";
    SlotsAppend(a, Xs(3)); a := a + Xs(3);
    SlotsAppend(a, "-y"); a := a + "-y";
    SlotsAppend(a, Xs(3)); a := a + Xs(3);
    SlotsAppend(a, "-"); a := a + "-";
    SlotsAppend(a, Xs(12)); a := a + Xs(12);
    assert a == Template;
  }

  /** `uuid()`: the template filled with 31 random draws. */
  function Generate(rs: seq<int>): (s: string)
    requires |rs| == 31 && AllNibbles(rs)
    ensures Instance(Template, s)
  {
    TemplateSlots();
    Fill(Template, rs)
  }

  /** Every generated id has the version-4 shape: 36 characters, hyphens at
      8, 13, 18 and 23, `4` at 14, a variant digit at 19, lower-case hex elsewhere. */
  lemma GenerateIsV4(rs: seq<int>)
    requires |rs| == 31 && AllNibbles(rs)
    ensures IsV4(Generate(rs))
  {
    TemplateChars();
    var s := Generate(rs);
    assert Instance(Template, s);
    forall i | 0 <= i < 36
      ensures if i == 8 || i == 13 || i == 18 || i == 23 then s[i] == '-'
              else if i == 14 then s[i] == '4'
              else if i == 19 then IsVariantDigit(s[i])
              else IsHexDigit(s[i])
    {
      assert Template[i] == TemplateAt(i);
    }
  }

  lemma V4IsInstance(s: string)
    requires IsV4(s)
    ensures Instance(Template, s)
  {
    TemplateChars();
    forall i | 0 <= i < 36
      ensures && (Template[i] == 'x' ==> IsHexDigit(s[i]))
              && (Template[i] == 'y' ==> IsVariantDigit(s[i]))
              && (!IsPlaceholder(Template[i]) ==> s[i] == Template[i])
    {
      assert Template[i] == TemplateAt(i);
    }
  }

  /** And every version-4 id of that shape is generated by some draws. */
  lemma V4IsGenerated(s: string)
    requires IsV4(s)
    ensures exists rs :: |rs| == 31 && AllNibbles(rs) && Generate(rs) == s
  {
    V4IsInstance(s);
    TemplateSlots();
    FillDraws(Template, s);
    var rs := Draws(Template, s);
    assert Generate(rs) == s;
  }

  /** The key under which the device id is persisted. */
  const DeviceIdKey: string := "mcs-deviceId"

  /** `Data.getStringVariable(key) || (generate, persist and return a generated id)`:
      the persisted id if one is stored and non-empty, else `generated`, which is
      then stored. */
  function ResolveDeviceId(store: map<string, string>, generated: string): (r: (string, map<string, string>))
    ensures DeviceIdKey in r.1 && r.1[DeviceIdKey] == r.0
    ensures Truthy(Get(store, DeviceIdKey)) ==> r.1 == store
    ensures !Truthy(Get(store, DeviceIdKey)) ==> r.0 == generated
    ensures forall k :: k != DeviceIdKey ==> Get(r.1, k) == Get(store, k)
  {
    if Truthy(Get(store, DeviceIdKey)) then (store[DeviceIdKey], store)
    else (generated, store[DeviceIdKey := generated])
  }

  /** Once resolved with a non-empty id, the device id is the same on every
      later start, whatever id that start would have generated; other
      stored keys are untouched. */
  lemma DeviceIdIsStable(store: map<string, string>, generated: string, later: string)
    requires generated != ""
    ensures ResolveDeviceId(ResolveDeviceId(store, generated).1, later).0 == ResolveDeviceId(store, generated).0
    ensures forall k :: k in store && k != DeviceIdKey ==> k in ResolveDeviceId(store, generated).1 && ResolveDeviceId(store, generated).1[k] == store[k]
  {
  }
}
