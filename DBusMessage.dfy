/** A DBus reply as a tree of typed values, and the MessageIter cursor the
    MPRIS backend walks it with (plugins/now_playing/now_playing.cpp:313-368).
    The libdbus handles behind the source's wrappers are replaced by this tree:
    a reply is the sequence of its top-level arguments. */
module DBusMessage {
  import opened Common

  /** libdbus type codes: the ASCII letter of each type's signature. */
  type TypeCode = int

  const TYPE_INVALID: TypeCode := 0
  const TYPE_BOOLEAN: TypeCode := 'b' as int
  const TYPE_INT64: TypeCode := 'x' as int
  const TYPE_STRING: TypeCode := 's' as int
  const TYPE_OBJECT_PATH: TypeCode := 'o' as int
  const TYPE_VARIANT: TypeCode := 'v' as int
  const TYPE_ARRAY: TypeCode := 'a' as int
  const TYPE_DICT_ENTRY: TypeCode := 'e' as int

  /** A value in a DBus message body. An array carries the element type of
      its signature, which libdbus reports even for an empty array. */
  datatype Value =
    | Str(s: string)
    | ObjectPath(path: string)
    | Int64(n: int)
    | Bool(b: bool)
    | Variant(inner: Value)
    | Array(elementType: TypeCode, elements: seq<Value>)
    | DictEntry(key: Value, val: Value)

  /** The top-level arguments of a message. */
  type Reply = seq<Value>

  function TypeOf(v: Value): (t: TypeCode)
    ensures t != TYPE_INVALID
    ensures t == TYPE_STRING <==> v.Str?
    ensures t == TYPE_VARIANT <==> v.Variant?
    ensures t == TYPE_ARRAY <==> v.Array?
    ensures t == TYPE_DICT_ENTRY <==> v.DictEntry?
  {
    match v
    case Str(_) => TYPE_STRING
    case ObjectPath(_) => TYPE_OBJECT_PATH
    case Int64(_) => TYPE_INT64
    case Bool(_) => TYPE_BOOLEAN
    case Variant(_) => TYPE_VARIANT
    case Array(_, _) => TYPE_ARRAY
    case DictEntry(_, _) => TYPE_DICT_ENTRY
  }

  /** The values a sub-cursor created by recursing into v walks over. */
  function Children(v: Value): seq<Value> {
    match v
    case Variant(inner) => [inner]
    case Array(_, elements) => elements
    case DictEntry(key, val) => [key, val]
    case _ => []
  }

  /** What getString reads from a value: a string, and only a non-empty one. */
  function StringOf(v: Value): (r: Option<string>)
    ensures r.Some? <==> v.Str? && v.s != ""
    ensures r.Some? ==> r.value == v.s
  {
    if v.Str? && v.s != "" then Some(v.s) else None
  }

  /** A cursor over a sequence of sibling values. An invalid cursor (one made
      from a message with no arguments) reports type INVALID everywhere,
      cannot advance, and recursing from it gives another invalid cursor. */
  class MessageIter {
    var valid: bool
    var items: seq<Value>
    var pos: nat

    ghost predicate Valid()
      reads this
    {
      pos <= |items| && (!valid ==> items == [] && pos == 0)
    }

    /** Message::iterInit: valid exactly when the message has an argument. */
    constructor Init(reply: Reply)
      ensures Valid()
      ensures valid == (|reply| > 0) && pos == 0
      ensures items == (if |reply| > 0 then reply else [])
    {
      valid := |reply| > 0;
      items := if |reply| > 0 then reply else [];
      pos := 0;
    }

    /** The value under the cursor, if any. */
    function Current(): (r: Option<Value>)
      reads this
      requires Valid()
      ensures r.Some? <==> valid && pos < |items|
      ensures r.Some? ==> r.value == items[pos]
    {
      if valid && pos < |items| then Some(items[pos]) else None
    }

    function ArgType(): (t: TypeCode)
      reads this
      requires Valid()
      ensures t == TYPE_INVALID <==> Current().None?
      ensures Current().Some? ==> t == TypeOf(Current().value)
    {
      match Current()
      case None => TYPE_INVALID
      case Some(v) => TypeOf(v)
    }

    function ElementType(): (t: TypeCode)
      reads this
      requires Valid()
      ensures Current().Some? && Current().value.Array? ==> t == Current().value.elementType
      ensures Current().None? || !Current().value.Array? ==> t == TYPE_INVALID
    {
      match Current()
      case Some(Array(elementType, _)) => elementType
      case _ => TYPE_INVALID
    }

    function GetString(): (r: Option<string>)
      reads this
      requires Valid()
      ensures Current().None? ==> r.None?
      ensures Current().Some? ==> r == StringOf(Current().value)
    {
      match Current()
      case None => None
      case Some(v) => StringOf(v)
    }

    /** Advances to the next sibling; reports whether there is one. */
    method Next() returns (more: bool)
      requires Valid()
      modifies this
      ensures Valid() && valid == old(valid) && items == old(items)
      ensures pos == if valid && old(pos) < |items| then old(pos) + 1 else old(pos)
      ensures more == (valid && old(pos) + 1 < |items|)
    {
      if valid && pos < |items| {
        pos := pos + 1;
      }
      more := valid && pos < |items|;
    }

    /** A fresh cursor over the children of the current value. */
    method Recurse() returns (sub: MessageIter)
      requires Valid()
      ensures fresh(sub) && sub.Valid()
      ensures sub.valid == valid && sub.pos == 0
      ensures sub.items == if Current().Some? then Children(Current().value) else []
    {
      sub := new MessageIter.Over(valid, if valid && pos < |items| then Children(items[pos]) else []);
    }

    constructor Over(isValid: bool, values: seq<Value>)
      requires !isValid ==> values == []
      ensures Valid() && valid == isValid && items == values && pos == 0
    {
      valid := isValid;
      items := values;
      pos := 0;
    }
  }
}
