/** The AMF payload of invocation and data messages, seen through the
    reader's interface: a sequence of decoded values, and the function name
    and parameter list the data handler builds from it. */
module Amf {
  import opened Wire

  /** One decoded AMF value. An object is decoded into a flat string map,
      as the map writer of the onStatus path does; every other kind the
      reader knows (arrays, dates, undefined, ...) is `Other`. */
  datatype Value =
    | Str(s: string)
    | Num(n: Double)
    | Bool(b: bool)
    | Null
    | Obj(props: map<string, string>)
    | Other

  /** The decoding side of the reader: how a byte range decodes into values,
      and how a number or boolean is spelled in the trace of a data call. */
  datatype Codec = Codec(decode: seq<bv8> -> seq<Value>, format: Value -> string)

  /** A property of a decoded object as a string, empty when absent
      (the getString contract of the parameter map). */
  function Property(props: map<string, string>, key: string): (v: string)
    ensures key in props ==> v == props[key]
    ensures key !in props ==> v == ""
  {
    if key in props then props[key] else ""
  }

  /** The reads an invocation performs succeed: a name, a number, a null,
      then for onStatus a number and a null, for play a string. */
  predicate InvocationReadable(vs: seq<Value>)
  {
    && |vs| >= 3 && vs[0].Str? && vs[1].Num? && vs[2].Null?
    && (vs[0].s == "onStatus" ==> |vs| >= 5 && vs[3].Num? && vs[4].Null?)
    && (vs[0].s == "play" ==> |vs| >= 4 && vs[3].Str?)
  }

  // ---------------------------------------------------------------------
  // The data handler's trace: function name and parameter list

  /** A value the data handler appends to its parameter list. */
  predicate Shows(v: Value)
  {
    v.Str? || v.Num? || v.Bool?
  }

  /** How a shown value is spelled: strings as they are, numbers and
      booleans as the codec formats them. */
  function Spell(v: Value, format: Value -> string): string
  {
    if v.Str? then v.s else format(v)
  }

  /** What one value adds to the list: nothing when skipped, otherwise its
      spelling, after a separator unless it is the first value read. */
  function Piece(v: Value, first: bool, format: Value -> string): string
  {
    if !Shows(v) then "" else (if first then "" else ", ") + Spell(v, format)
  }

  /** The parameter list the loop builds from `vs`, starting with the
      "first" flag as given. */
  function ParamList(vs: seq<Value>, first: bool, format: Value -> string): string
  {
    if vs == [] then "" else Piece(vs[0], first, format) + ParamList(vs[1..], false, format)
  }

  /** One turn of the data handler's loop: appending the piece of value i
      to a prefix of the list leaves a prefix of the same list. */
  lemma AppendPiece(params: string, vs: seq<Value>, i: nat, first: bool, format: Value -> string)
    requires i < |vs|
    ensures params + ParamList(vs[i..], first, format)
         == (params + Piece(vs[i], first, format)) + ParamList(vs[i + 1..], false, format)
  {
    assert vs[i..][1..] == vs[i + 1..];
  }

  /** The spellings of the shown values, in order. */
  function Shown(vs: seq<Value>, format: Value -> string): (items: seq<string>)
  {
    if vs == [] then []
    else (if Shows(vs[0]) then [Spell(vs[0], format)] else []) + Shown(vs[1..], format)
  }

  /** Items joined by ", ". */
  function Joined(items: seq<string>): string
  {
    if items == [] then ""
    else if |items| == 1 then items[0]
    else items[0] + ", " + Joined(items[1..])
  }

  /** The separator the list starts with: the first value read clears the
      "first" flag even when it is skipped, so a list whose first value is
      skipped gets a leading ", " before its first shown value. */
  function LeadingSeparator(vs: seq<Value>, format: Value -> string): string
  {
    if |vs| > 0 && !Shows(vs[0]) && Shown(vs, format) != [] then ", " else ""
  }

  /** The parameter list is the shown values joined by ", ", preceded by one
      stray separator exactly when the first value is skipped and a later one
      is shown. */
  lemma ParamListShape(vs: seq<Value>, format: Value -> string)
    ensures ParamList(vs, true, format) == LeadingSeparator(vs, format) + Joined(Shown(vs, format))
  {
    if vs != [] {
      var v, rest := vs[0], vs[1..];
      ParamListAfterFirst(rest, format);
      if Shows(v) {
        JoinedCons(Spell(v, format), Shown(rest, format));
      } else {
        assert Shown(vs, format) == Shown(rest, format);
        assert ParamList(vs, true, format) == ParamList(rest, false, format);
      }
    }
  }

  /** Once the "first" flag is cleared, every shown value, the first one
      included, comes after a separator. */
  lemma {:induction false} ParamListAfterFirst(vs: seq<Value>, format: Value -> string)
    ensures ParamList(vs, false, format)
         == (if Shown(vs, format) != [] then ", " else "") + Joined(Shown(vs, format))
    decreases |vs|
  {
    if vs != [] {
      var v, rest := vs[0], vs[1..];
      ParamListAfterFirst(rest, format);
      if Shows(v) {
        JoinedCons(Spell(v, format), Shown(rest, format));
      } else {
        assert Shown(vs, format) == Shown(rest, format);
        assert ParamList(vs, false, format) == ParamList(rest, false, format);
      }
    }
  }

  /** Joining an item in front of others puts a separator between them. */
  lemma JoinedCons(x: string, items: seq<string>)
    ensures Joined([x] + items) == x + (if items != [] then ", " + Joined(items) else "")
  {
    assert ([x] + items)[1..] == items;
  }

  /** The quirk on a concrete list: a null first argument followed by a
      string yields ", a" rather than "a". */
  lemma ParamListSkippedFirst(format: Value -> string)
    ensures ParamList([Null, Str("a")], true, format) == ", a"
  {
    assert [Null, Str("a")][1..] == [Str("a")];
    assert [Str("a")][1..] == [];
  }

  /** The function name and parameter list the data handler traces. */
  datatype Call = Call(name: string, params: string)

  /** A data message calls a function only when its first value is a string;
      the call is named by that string. */
  function DataCall(vs: seq<Value>, format: Value -> string): (c: Option<Call>)
    ensures c.Some? <==> |vs| > 0 && vs[0].Str?
    ensures c.Some? ==> c.value.name == vs[0].s
  {
    if |vs| > 0 && vs[0].Str? then Some(Call(vs[0].s, ParamList(vs[1..], true, format))) else None
  }

  /** The traced parameters are the values after the function name, shown
      as ParamListShape describes. */
  lemma DataCallParams(vs: seq<Value>, format: Value -> string)
    requires |vs| > 0 && vs[0].Str?
    ensures DataCall(vs, format).value.params
         == LeadingSeparator(vs[1..], format) + Joined(Shown(vs[1..], format))
  {
    ParamListShape(vs[1..], format);
  }

  datatype Option<T> = None | Some(value: T)
}
