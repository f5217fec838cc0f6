/** The base class of application-layer protocols (HTTP/1.*, HTTP/2, ...).
    Its layer is `Application`; it has no registry index and decodes no
    further layer. */
module ApplicationLayer {
  import opened PyRepr
  import opened Exceptions
  import Null

  const LayerName := "Application"

  /** An instance of `Application` or of one of its subclasses; the only
      thing the base class looks at is the name of the concrete class. */
  datatype Application = Application(className: string) {

    /** `layer`: the class-level `__layer__` constant. */
    function Layer(): (r: string)
      ensures r == LayerName
    {
      LayerName
    }

    /** `__index__`: fails with `IntError` whose message names the class. */
    function Index(): (r: Result<nat>)
      ensures r.Failure? && r.error.IntError?
      ensures ParseNotInteger(r.error.message) == Some(className)
      ensures Plain(className) ==> r.error.message == "'" + className + "'" + NotIntegerSuffix
    {
      ParseNotIntegerMessage(className);
      Failure(IntError(NotIntegerMessage(className)))
    }

    /** `_decode_next_layer(dict_, proto=None, length=None)`: fails with
        `UnsupportedCall` whatever the arguments. */
    function DecodeNextLayer(dict_: map<string, PyValue>, proto: PyValue, length: PyValue): (r: Result<map<string, PyValue>>)
      ensures r.Failure? && r.error.UnsupportedCall?
      ensures ParseNoAttribute(r.error.message) == Some((className, "_decode_next_layer"))
    {
      ParseNoAttributeMessage(className, "_decode_next_layer");
      Failure(UnsupportedCall(NoAttributeMessage(className, "_decode_next_layer")))
    }

    /** `_import_next_layer(proto, length=None)`: fails with
        `UnsupportedCall` whatever the arguments. */
    function ImportNextLayer(proto: PyValue, length: PyValue): (r: Result<PyValue>)
      ensures r.Failure? && r.error.UnsupportedCall?
      ensures ParseNoAttribute(r.error.message) == Some((className, "_import_next_layer"))
    {
      ParseNoAttributeMessage(className, "_import_next_layer");
      Failure(UnsupportedCall(NoAttributeMessage(className, "_import_next_layer")))
    }
  }

  /** The error kinds are distinct: asking an application protocol for its
      registry index raises `IntError`, where the no-payload sentinel
      raises `UnsupportedCall`; and the index failure is never the failure
      of a next-layer call. */
  lemma IndexErrorKinds(a: Application, dict_: map<string, PyValue>, proto: PyValue, length: PyValue)
    ensures a.Index().error.IntError? && Null.NoPayload.Index().error.UnsupportedCall?
    ensures a.Index().error != Null.NoPayload.Index().error
    ensures a.Index().error != a.DecodeNextLayer(dict_, proto, length).error
    ensures a.Index().error != a.ImportNextLayer(proto, length).error
  {
  }

  /** Decode and import refusals name different attributes, for every
      class name. */
  lemma NextLayerFailuresDistinct(a: Application, dict_: map<string, PyValue>, proto: PyValue, length: PyValue)
    ensures a.DecodeNextLayer(dict_, proto, length).error != a.ImportNextLayer(proto, length).error
  {
    var d := a.DecodeNextLayer(dict_, proto, length);
    var i := a.ImportNextLayer(proto, length);
    assert ParseNoAttribute(d.error.message) != ParseNoAttribute(i.error.message);
  }
}
