/** The no-payload protocol: the sentinel at the end of every protocol
    chain. Its name is `Null`, its payload is the instance itself, and every
    other capability query fails with `UnsupportedCall`. */
module Null {
  import opened PyRepr
  import opened Exceptions

  const ProtocolName := "Null"
  /** `self.__class__.__name__` and `cls.__name__` in the messages. */
  const ClassName := "NoPayload"

  class NoPayload {
    /** `_next`: the payload of this instance. */
    var next: NoPayload?
    /** `_info`: the info record, as field name to value. */
    var info: map<string, PyValue>
    /** `_file`: the bytes of the source data stream. */
    var file: seq<bv8>
    /** `_protos`: the protocol chain, as protocol names. */
    var protos: seq<string>

    /** The payload of a no-payload instance is the instance itself. */
    ghost predicate Valid()
      reads this
    {
      next == this
    }

    /** `NoPayload(*args, **kwargs)`: every argument is ignored; the instance
        starts with an empty info record, an empty stream and an empty
        chain, and is its own payload. */
    constructor (args: seq<PyValue>, kwargs: map<string, PyValue>)
      ensures Valid()
      ensures next == this && info == map[] && file == [] && protos == []
    {
      next := null;
      info := map[];
      file := [];
      protos := [];
      new;
      next := this;
    }

    /** `name`: always `Null`, whatever the instance holds. */
    function Name(): (r: string)
      ensures r == ProtocolName
    {
      ProtocolName
    }

    /** `length`: fails with `UnsupportedCall` naming `length`. */
    function Length(): (r: Result<nat>)
      ensures r.Failure? && r.error.UnsupportedCall?
      ensures ParseNoAttribute(r.error.message) == Some((ClassName, "length"))
    {
      ParseNoAttributeMessage(ClassName, "length");
      Failure(UnsupportedCall(NoAttributeMessage(ClassName, "length")))
    }

    /** `protocol`: fails with `UnsupportedCall` naming `protocol`. */
    function Protocol(): (r: Result<string>)
      ensures r.Failure? && r.error.UnsupportedCall?
      ensures ParseNoAttribute(r.error.message) == Some((ClassName, "protocol"))
    {
      ParseNoAttributeMessage(ClassName, "protocol");
      Failure(UnsupportedCall(NoAttributeMessage(ClassName, "protocol")))
    }

    /** `__index__`: the protocol has no registry entry, so this fails with
        `UnsupportedCall` (not `IntError`), naming the class. */
    static function Index(): (r: Result<nat>)
      ensures r.Failure? && r.error.UnsupportedCall? && !r.error.IntError?
      ensures ParseNotInteger(r.error.message) == Some(ClassName)
      ensures r.error.message == "'" + ClassName + "'" + NotIntegerSuffix
    {
      ParseNotIntegerMessage(ClassName);
      ClassNamePlain();
      Failure(UnsupportedCall(NotIntegerMessage(ClassName)))
    }

    /** `_decode_next_layer(*args, **kwargs)`: fails with `UnsupportedCall`
        for every argument list. Being a function, it changes nothing. */
    function DecodeNextLayer(args: seq<PyValue>, kwargs: map<string, PyValue>): (r: Result<PyValue>)
      ensures r.Failure? && r.error.UnsupportedCall?
      ensures ParseNoAttribute(r.error.message) == Some((ClassName, "_decode_next_layer"))
    {
      ParseNoAttributeMessage(ClassName, "_decode_next_layer");
      Failure(UnsupportedCall(NoAttributeMessage(ClassName, "_decode_next_layer")))
    }

    /** `_import_next_layer(*args, **kwargs)`: fails with `UnsupportedCall`
        for every argument list. */
    function ImportNextLayer(args: seq<PyValue>, kwargs: map<string, PyValue>): (r: Result<PyValue>)
      ensures r.Failure? && r.error.UnsupportedCall?
      ensures ParseNoAttribute(r.error.message) == Some((ClassName, "_import_next_layer"))
    {
      ParseNoAttributeMessage(ClassName, "_import_next_layer");
      Failure(UnsupportedCall(NoAttributeMessage(ClassName, "_import_next_layer")))
    }

    /** Following the payload `k` times from a no-payload instance stays at
        that same instance. */
    function Follow(k: nat): (r: NoPayload)
      reads this
      requires Valid()
      ensures r == this
      decreases k
    {
      if k == 0 then this else next.Follow(k - 1)
    }
  }

  /** The class name is written by `repr` between single quotes. */
  lemma ClassNamePlain()
    ensures Plain(ClassName)
  {
    AsciiPlain(ClassName);
  }

  /** The two next-layer operations fail with messages that name different
      attributes, so a caller can tell which call was refused. */
  lemma NextLayerFailuresDistinct(p: NoPayload, args: seq<PyValue>, kwargs: map<string, PyValue>)
    ensures p.DecodeNextLayer(args, kwargs).error != p.ImportNextLayer(args, kwargs).error
    ensures p.Length().error != p.Protocol().error
  {
  }
}
