/** The exceptions the protocol classes raise, as values, and the two
    message formats they use. A Python `raise` becomes a `Failure` result. */
module Exceptions {
  import opened PyStr
  import opened PyRepr

  /** `UnsupportedCall` and `IntError` are pcapkit's own exception classes;
      `ValueError` is Python's. */
  datatype Error =
    | UnsupportedCall(message: string)
    | IntError(message: string)
    | ValueError(message: string)

  datatype Result<+T> = Success(value: T) | Failure(error: Error)

  const NoAttributeMiddle := "' object has no attribute '"
  const NotIntegerSuffix := " object cannot be interpreted as an integer"

  /** `f"'{cls}' object has no attribute '{attr}'"`. */
  function NoAttributeMessage(cls: string, attr: string): string {
    "'" + cls + NoAttributeMiddle + attr + "'"
  }

  /** `f"{cls!r} object cannot be interpreted as an integer"`. */
  function NotIntegerMessage(cls: string): (r: string)
    ensures Plain(cls) ==> r == "'" + cls + "'" + NotIntegerSuffix
  {
    if Plain(cls) then ReprPlain(cls); Repr(cls) + NotIntegerSuffix
    else Repr(cls) + NotIntegerSuffix
  }

  /** Reads the class and the attribute back out of a "has no attribute"
      message. The attribute is the text between the last two quotes. */
  function ParseNoAttribute(msg: string): Option<(string, string)> {
    if |msg| >= 2 + |NoAttributeMiddle| && msg[0] == '\'' && msg[|msg| - 1] == '\'' then
      var body := msg[..|msg| - 1];
      var k := LastIndexOf(body, '\'');
      var head := body[..k + 1];
      if |head| >= 1 + |NoAttributeMiddle| && head[|head| - |NoAttributeMiddle|..] == NoAttributeMiddle then
        Some((head[1..|head| - |NoAttributeMiddle|], body[k + 1..]))
      else None
    else None
  }

  /** Reads the class name back out of a "cannot be interpreted as an
      integer" message. */
  function ParseNotInteger(msg: string): Option<string> {
    if |msg| >= |NotIntegerSuffix| && msg[|msg| - |NotIntegerSuffix|..] == NotIntegerSuffix then
      Unrepr(msg[..|msg| - |NotIntegerSuffix|])
    else None
  }

  /** A "has no attribute" message names its class and its attribute, for
      any class name and any attribute name without a quote in it. */
  lemma ParseNoAttributeMessage(cls: string, attr: string)
    requires '\'' !in attr
    ensures ParseNoAttribute(NoAttributeMessage(cls, attr)) == Some((cls, attr))
  {
    var msg := NoAttributeMessage(cls, attr);
    var head := "'" + cls + NoAttributeMiddle;
    var body := msg[..|msg| - 1];
    assert body == head + attr;
    assert LastIndexOf(body, '\'') == |head| - 1 by {
      assert body[|head| - 1] == '\'';
      assert forall i :: |head| <= i < |body| ==> body[i] == attr[i - |head|];
    }
    assert body[..|head|] == head;
    assert body[|head|..] == attr;
    assert head[|head| - |NoAttributeMiddle|..] == NoAttributeMiddle;
    assert head[1..|head| - |NoAttributeMiddle|] == cls;
  }

  /** A "cannot be interpreted as an integer" message names its class, for
      any class name. */
  lemma ParseNotIntegerMessage(cls: string)
    ensures ParseNotInteger(NotIntegerMessage(cls)) == Some(cls)
  {
    var msg := NotIntegerMessage(cls);
    assert msg[..|msg| - |NotIntegerSuffix|] == Repr(cls);
    assert msg[|msg| - |NotIntegerSuffix|..] == NotIntegerSuffix;
    UnreprRepr(cls);
  }
}
