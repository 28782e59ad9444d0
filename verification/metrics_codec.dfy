/**
  The codec boundary of the pdata metrics model: a marshaler composes a
  translator (Metrics -> protocol model) with an encoder (model -> bytes), an
  unmarshaler composes a decoder (bytes -> model) with a translator
  (model -> Metrics). Both fail fast and wrap the failing stage's error with a
  stage-specific context; on error they hand back nil bytes or the zero
  Metrics. The four stages are caller-supplied functions returning Go-style
  (value, error) pairs.
*/
module MetricsCodec {
  import opened Wrappers
  import opened MetricsTree

  newtype byte = x: int | 0 <= x < 256

  /** A Go byte slice: nil, or a (possibly empty) sequence of bytes. */
  datatype ByteSlice = Nil | Slice(bytes: seq<byte>)

  /**
    A Go error: one produced by a stage, or one wrapped with a context by
    fmt.Errorf("<context>: %w", cause).
  */
  datatype Error = Failure(text: string) | Wrapped(context: string, cause: Error)

  /** The text of an error, as Error() renders it. */
  function Message(e: Error): string
  {
    match e
    case Failure(text) => text
    case Wrapped(context, cause) => context + ": " + Message(cause)
  }

  /** errors.Unwrap: the cause of a wrapped error, nothing for a stage's own error. */
  function Unwrap(e: Error): Option<Error>
  {
    match e
    case Failure(_) => None
    case Wrapped(_, cause) => Some(cause)
  }

  /** fmt.Errorf("<context>: %w", cause). */
  function Errorf(context: string, cause: Error): (e: Error)
    ensures Unwrap(e) == Some(cause)
    ensures Message(e) == context + ": " + Message(cause)
  {
    Wrapped(context, cause)
  }

  const TranslateToModelFailed: string := "converting pdata to model failed"
  const EncodeFailed: string := "marshal failed"
  const DecodeFailed: string := "unmarshal failed"
  const TranslateFromModelFailed: string := "converting model to pdata failed"

  /** The wrapping error an error-returning pipeline stage reports under its context. */
  predicate WrapsWith(err: Option<Error>, context: string, cause: Error)
  {
    err.Some? && Unwrap(err.value) == Some(cause)
    && Message(err.value) == context + ": " + Message(cause)
  }

  /** An encoder paired with the translator that feeds it; Model is the protocol's data model. */
  datatype MetricsMarshaler<!Model> = MetricsMarshaler(
    encoder: Model -> (ByteSlice, Option<Error>),
    translator: Metrics -> (Model, Option<Error>))

  /** A decoder paired with the translator it feeds. */
  datatype MetricsUnmarshaler<!Model> = MetricsUnmarshaler(
    decoder: ByteSlice -> (Model, Option<Error>),
    translator: Model -> (Metrics, Option<Error>))

  /**
    Translates, then encodes. A translation error yields nil bytes and that
    error wrapped as a conversion failure; an encoding error yields nil bytes
    and that error wrapped as a marshal failure; otherwise exactly the
    encoder's bytes and no error.
  */
  function Marshal<Model>(t: MetricsMarshaler<Model>, td: Metrics): (r: (ByteSlice, Option<Error>))
    ensures t.translator(td).1.Some? ==>
              r.0 == Nil && WrapsWith(r.1, TranslateToModelFailed, t.translator(td).1.value)
    ensures t.translator(td).1.None? && t.encoder(t.translator(td).0).1.Some? ==>
              r.0 == Nil && WrapsWith(r.1, EncodeFailed, t.encoder(t.translator(td).0).1.value)
    ensures t.translator(td).1.None? && t.encoder(t.translator(td).0).1.None? ==>
              r == (t.encoder(t.translator(td).0).0, None)
  {
    var (model, err) := t.translator(td);
    if err.Some? then (Nil, Some(Errorf(TranslateToModelFailed, err.value)))
    else
      var (buf, err') := t.encoder(model);
      if err'.Some? then (Nil, Some(Errorf(EncodeFailed, err'.value)))
      else (buf, None)
  }

  /**
    Decodes, then translates. A decoding error yields the zero Metrics and
    that error wrapped as an unmarshal failure; a translation error yields the
    zero Metrics and that error wrapped as a conversion failure; otherwise
    exactly the translator's Metrics and no error.
  */
  function Unmarshal<Model>(t: MetricsUnmarshaler<Model>, buf: ByteSlice): (r: (Metrics, Option<Error>))
    ensures t.decoder(buf).1.Some? ==>
              r.0 == ZeroMetrics && WrapsWith(r.1, DecodeFailed, t.decoder(buf).1.value)
    ensures t.decoder(buf).1.None? && t.translator(t.decoder(buf).0).1.Some? ==>
              r.0 == ZeroMetrics
              && WrapsWith(r.1, TranslateFromModelFailed, t.translator(t.decoder(buf).0).1.value)
    ensures t.decoder(buf).1.None? && t.translator(t.decoder(buf).0).1.None? ==>
              r == (t.translator(t.decoder(buf).0).0, None)
  {
    var (model, err) := t.decoder(buf);
    if err.Some? then (ZeroMetrics, Some(Errorf(DecodeFailed, err.value)))
    else
      var (td, err') := t.translator(model);
      if err'.Some? then (ZeroMetrics, Some(Errorf(TranslateFromModelFailed, err'.value)))
      else (td, None)
  }

  /** Marshal reports an error exactly when one of its two stages does. */
  lemma MarshalFailsIffStageFails<Model>(t: MetricsMarshaler<Model>, td: Metrics)
    ensures Marshal(t, td).1.Some?
        <==> t.translator(td).1.Some? || t.encoder(t.translator(td).0).1.Some?
  {
  }

  /** Unmarshal reports an error exactly when one of its two stages does. */
  lemma UnmarshalFailsIffStageFails<Model>(t: MetricsUnmarshaler<Model>, buf: ByteSlice)
    ensures Unmarshal(t, buf).1.Some?
        <==> t.decoder(buf).1.Some? || t.translator(t.decoder(buf).0).1.Some?
  {
  }

  /**
    When translation fails the encoder is never consulted: swapping it for
    any other encoder changes nothing.
  */
  lemma MarshalSkipsEncoderOnTranslateError<Model>(
    translator: Metrics -> (Model, Option<Error>),
    encoder1: Model -> (ByteSlice, Option<Error>),
    encoder2: Model -> (ByteSlice, Option<Error>),
    td: Metrics)
    requires translator(td).1.Some?
    ensures Marshal(MetricsMarshaler(encoder1, translator), td)
         == Marshal(MetricsMarshaler(encoder2, translator), td)
  {
  }

  /**
    When decoding fails the translator is never consulted: swapping it for
    any other translator changes nothing.
  */
  lemma UnmarshalSkipsTranslatorOnDecodeError<Model>(
    decoder: ByteSlice -> (Model, Option<Error>),
    translator1: Model -> (Metrics, Option<Error>),
    translator2: Model -> (Metrics, Option<Error>),
    buf: ByteSlice)
    requires decoder(buf).1.Some?
    ensures Unmarshal(MetricsUnmarshaler(decoder, translator1), buf)
         == Unmarshal(MetricsUnmarshaler(decoder, translator2), buf)
  {
  }

  /**
    The two pipelines compose: if the unmarshaler's stages undo the
    marshaler's stages on this value, unmarshaling the marshaled bytes gives
    the original Metrics back.
  */
  lemma PipelineRoundTrip<Model, Model'>(
    m: MetricsMarshaler<Model>, u: MetricsUnmarshaler<Model'>, td: Metrics)
    requires m.translator(td).1.None?
    requires m.encoder(m.translator(td).0).1.None?
    requires u.decoder(m.encoder(m.translator(td).0).0).1.None?
    requires u.translator(u.decoder(m.encoder(m.translator(td).0).0).0) == (td, None)
    ensures Marshal(m, td).1.None?
    ensures Unmarshal(u, Marshal(m, td).0) == (td, None)
  {
  }

  // The protocol's own wire format: the protocol model is the record tree,
  // so no translator stage runs and errors pass through unwrapped.

  /**
    Parses bytes into a Metrics over the decoded record; on a decoding error,
    the zero Metrics and the decoder's error as is.
  */
  function MetricsFromOtlpProtoBytes(
    decode: ByteSlice -> (ExportMetricsServiceRequest, Option<Error>), data: ByteSlice)
    : (r: (Metrics, Option<Error>))
    ensures decode(data).1.Some? ==> r == (ZeroMetrics, decode(data).1)
    ensures decode(data).1.None? ==>
              r.1.None? && r.0.Valid() && r.0.orig.value == decode(data).0
  {
    var (req, err) := decode(data);
    if err.Some? then (ZeroMetrics, err) else (Metrics(Some(req)), None)
  }

  /** Serializes the record a valid Metrics holds, by the protocol's own encoder. */
  function ToOtlpProtoBytes(
    encode: ExportMetricsServiceRequest -> (ByteSlice, Option<Error>), md: Metrics)
    : (r: (ByteSlice, Option<Error>))
    requires md.Valid()
  {
    encode(md.orig.value)
  }

  /**
    If the protocol codec reads back what it writes for this record, a valid
    Metrics survives serialization followed by parsing.
  */
  lemma ProtoBytesRoundTrip(
    encode: ExportMetricsServiceRequest -> (ByteSlice, Option<Error>),
    decode: ByteSlice -> (ExportMetricsServiceRequest, Option<Error>),
    md: Metrics)
    requires md.Valid()
    requires encode(md.orig.value).1.None?
    requires decode(encode(md.orig.value).0) == (md.orig.value, None)
    ensures ToOtlpProtoBytes(encode, md).1.None?
    ensures MetricsFromOtlpProtoBytes(decode, ToOtlpProtoBytes(encode, md).0) == (md, None)
  {
  }
}
