/** The error algebra of the PHP binding layer: the closed `Error` sum type,
    its `Display` rendering, the ingest conversions from `NulError` and
    `TryFromIntError`, the egress conversion into a `PhpException`, and the
    diagnostic emitter `php_error`. */
module PhpErrors {
  import opened Wrappers
  import opened Decimal
  import opened RustStd

  // ---------------------------------------------------------------------
  // Foreign payloads. Their types and their Display/Debug output are
  // defined elsewhere in the binding layer; here they are opaque values,
  // and their textual forms are supplied by a `ForeignFormat`.
  // ---------------------------------------------------------------------

  /** The engine's data type of a zval. */
  datatype DataType = DataType(id: nat)
  /** The type-flag bits of a zval. */
  datatype ZvalTypeFlags = ZvalTypeFlags(bits: nat)
  /** The flag bits of a class entry. */
  datatype ClassFlags = ClassFlags(bits: nat)
  /** An owned engine object (the pointee of a `ZBox<ZendObject>`). */
  datatype ZendObject = ZendObject(handle: nat)

  /** The Display form of `DataType` and the Debug forms of the flag types
      and of engine objects. */
  datatype ForeignFormat = ForeignFormat(
    dataTypeDisplay: DataType -> string,
    typeFlagsDebug: ZvalTypeFlags -> string,
    classFlagsDebug: ClassFlags -> string,
    objectDebug: ZendObject -> string)

  // ---------------------------------------------------------------------
  // The error type and the library's result alias.
  // ---------------------------------------------------------------------

  /** The library's error type; exactly one variant is active.
      The doc comment of `IncorrectArguments` in the Rust source calls its
      first field the expected minimum and its second the received count,
      but `Render` prints the SECOND field as the minimum. The model follows
      the rendering: `received` first, `expected` second. */
  datatype Error =
    | IncorrectArguments(received: usize, expected: usize)
    | ZvalConversion(dataType: DataType)
    | UnknownDatatype(rawType: u32)
    | InvalidTypeToDatatype(typeFlags: ZvalTypeFlags)
    | InvalidScope
    | InvalidPointer
    | InvalidProperty
    | InvalidCString
    | InvalidUtf8
    | Callable
    | Object
    | InvalidException(classFlags: ClassFlags)
    | IntegerOverflow
    | Exception(object: ZendObject)
    | StreamWrapperRegistrationFailure
    | StreamWrapperUnregistrationFailure

  /** `Result<T, E = Error>`. */
  type PhpResult<T> = Result<T, Error>

  /** The position of the variant in the declaration, as Rust numbers them:
      each variant has its own index. */
  function Discriminant(e: Error): (d: nat)
    ensures d < 16
    ensures e.IncorrectArguments? <==> d == 0
    ensures e.ZvalConversion? <==> d == 1
    ensures e.UnknownDatatype? <==> d == 2
    ensures e.InvalidTypeToDatatype? <==> d == 3
    ensures e.InvalidScope? <==> d == 4
    ensures e.InvalidPointer? <==> d == 5
    ensures e.InvalidProperty? <==> d == 6
    ensures e.InvalidCString? <==> d == 7
    ensures e.InvalidUtf8? <==> d == 8
    ensures e.Callable? <==> d == 9
    ensures e.Object? <==> d == 10
    ensures e.InvalidException? <==> d == 11
    ensures e.IntegerOverflow? <==> d == 12
    ensures e.Exception? <==> d == 13
    ensures e.StreamWrapperRegistrationFailure? <==> d == 14
    ensures e.StreamWrapperUnregistrationFailure? <==> d == 15
  {
    match e
    case IncorrectArguments(_, _) => 0
    case ZvalConversion(_) => 1
    case UnknownDatatype(_) => 2
    case InvalidTypeToDatatype(_) => 3
    case InvalidScope => 4
    case InvalidPointer => 5
    case InvalidProperty => 6
    case InvalidCString => 7
    case InvalidUtf8 => 8
    case Callable => 9
    case Object => 10
    case InvalidException(_) => 11
    case IntegerOverflow => 12
    case Exception(_) => 13
    case StreamWrapperRegistrationFailure => 14
    case StreamWrapperUnregistrationFailure => 15
  }

  /** The variants whose payload is only rendered through a foreign form. */
  predicate HasForeignPayload(e: Error) {
    e.ZvalConversion? || e.InvalidTypeToDatatype? || e.InvalidException? || e.Exception?
  }

  // ---------------------------------------------------------------------
  // Rendering (`impl Display for Error`).
  // ---------------------------------------------------------------------

  // The templates of `Display`. Texts longer than 30 characters are written
  // as concatenations of shorter literals (the same text), which keeps the
  // solver's work on individual characters small.

  const ArgumentsLead := "Expected at least "
  const ArgumentsMiddle := " arguments, got "
  const ArgumentsTail := " arguments."
  const ZvalConversionLead := "Could not convert " + "Zval from type "
  const ZvalConversionTail := " into primitive type."
  const UnknownDatatypeLead := "Unknown datatype "
  const UnknownDatatypeTail := "."
  const TypeToDatatypeLead := "Type flags did not " + "contain a datatype: "
  const InvalidExceptionLead := "Invalid exception " + "type was thrown: "
  const ExceptionLead := "Exception was thrown: "

  const InvalidScopeMessage := "Invalid scope."
  const InvalidPointerMessage := "Invalid pointer."
  const InvalidPropertyMessage := "Property does not " + "exist on object."
  const InvalidCStringMessage :=
    "String given contains " + "NUL-bytes which cannot be " + "present in a C string."
  const InvalidUtf8Message := "Invalid Utf8 byte sequence."
  const CallableMessage := "Could not call given function."
  const ObjectMessage := "An object was expected."
  const IntegerOverflowMessage :=
    "Converting integer " + "arguments resulted " + "in an overflow."
  const RegistrationFailureMessage :=
    "A failure occurred " + "while registering " + "the stream wrapper"
  const UnregistrationFailureMessage :=
    "A failure occurred " + "while unregistering " + "the stream wrapper"

  /** The message `Display` writes for `e`. Total: every variant has an arm. */
  function Render(e: Error, fmt: ForeignFormat): string {
    match e
    case IncorrectArguments(n, expected) =>
      ArgumentsLead + Dec(expected) + ArgumentsMiddle + Dec(n) + ArgumentsTail
    case ZvalConversion(ty) => ZvalConversionLead + fmt.dataTypeDisplay(ty) + ZvalConversionTail
    case UnknownDatatype(dt) => UnknownDatatypeLead + Dec(dt) + UnknownDatatypeTail
    case InvalidTypeToDatatype(flags) => TypeToDatatypeLead + fmt.typeFlagsDebug(flags)
    case InvalidScope => InvalidScopeMessage
    case InvalidPointer => InvalidPointerMessage
    case InvalidProperty => InvalidPropertyMessage
    case InvalidCString => InvalidCStringMessage
    case InvalidUtf8 => InvalidUtf8Message
    case Callable => CallableMessage
    case Object => ObjectMessage
    case InvalidException(flags) => InvalidExceptionLead + fmt.classFlagsDebug(flags)
    case IntegerOverflow => IntegerOverflowMessage
    case Exception(obj) => ExceptionLead + fmt.objectDebug(obj)
    case StreamWrapperRegistrationFailure => RegistrationFailureMessage
    case StreamWrapperUnregistrationFailure => UnregistrationFailureMessage
  }

  // ---------------------------------------------------------------------
  // Reading messages back: the partner of `Render`.
  // ---------------------------------------------------------------------

  function StripPrefix(s: string, p: string): (r: Option<string>)
    ensures r.Some? <==> p <= s
    ensures r.Some? ==> s == p + r.value
  {
    if p <= s then Some(s[|p|..]) else None
  }

  /** The variant a message was rendered from, by its fixed leading text or
      its whole fixed text; None for text no variant renders to. */
  function Classify(s: string): Option<nat> {
    if ArgumentsLead <= s then Some(0)
    else if ZvalConversionLead <= s then Some(1)
    else if UnknownDatatypeLead <= s then Some(2)
    else if TypeToDatatypeLead <= s then Some(3)
    else if InvalidExceptionLead <= s then Some(11)
    else if ExceptionLead <= s then Some(13)
    else if s == InvalidScopeMessage then Some(4)
    else if s == InvalidPointerMessage then Some(5)
    else if s == InvalidPropertyMessage then Some(6)
    else if s == InvalidCStringMessage then Some(7)
    else if s == InvalidUtf8Message then Some(8)
    else if s == CallableMessage then Some(9)
    else if s == ObjectMessage then Some(10)
    else if s == IntegerOverflowMessage then Some(12)
    else if s == RegistrationFailureMessage then Some(14)
    else if s == UnregistrationFailureMessage then Some(15)
    else None
  }

  /** What an `IncorrectArguments` message tells its reader. */
  datatype ArgumentCounts = ArgumentCounts(minimum: nat, received: nat)

  /** Reads a decimal number followed by the text `sep`: the number and
      what follows `sep`. */
  function ReadNumberThen(s: string, sep: string): Option<(nat, string)> {
    match ReadNumber(s)
    case None => None
    case Some((n, rest)) =>
      match StripPrefix(rest, sep)
      case None => None
      case Some(after) => Some((n, after))
  }

  /** Reads "Expected at least M arguments, got N arguments." */
  function ParseIncorrectArguments(s: string): Option<ArgumentCounts> {
    match StripPrefix(s, ArgumentsLead)
    case None => None
    case Some(t) =>
      match ReadNumberThen(t, ArgumentsMiddle)
      case None => None
      case Some((minimum, afterMinimum)) =>
        match ReadNumberThen(afterMinimum, ArgumentsTail)
        case None => None
        case Some((received, rest)) =>
          if rest == [] then Some(ArgumentCounts(minimum, received)) else None
  }

  /** Reads "Unknown datatype D." */
  function ParseUnknownDatatype(s: string): Option<nat> {
    match StripPrefix(s, UnknownDatatypeLead)
    case None => None
    case Some(t) =>
      match ReadNumberThen(t, UnknownDatatypeTail)
      case None => None
      case Some((dt, rest)) => if rest == [] then Some(dt) else None
  }

  /** The error a message was rendered from, for the variants whose payload
      is entirely in the message (numbers or nothing). */
  function Recover(s: string): Option<Error> {
    var d := Classify(s);
    if d == Some(0) then
      match ParseIncorrectArguments(s)
      case None => None
      case Some(c) =>
        if c.received < 0x1_0000_0000_0000_0000 && c.minimum < 0x1_0000_0000_0000_0000
        then Some(IncorrectArguments(c.received, c.minimum))
        else None
    else if d == Some(2) then
      match ParseUnknownDatatype(s)
      case None => None
      case Some(dt) => if dt < 0x1_0000_0000 then Some(UnknownDatatype(dt)) else None
    else if d == Some(4) then Some(InvalidScope)
    else if d == Some(5) then Some(InvalidPointer)
    else if d == Some(6) then Some(InvalidProperty)
    else if d == Some(7) then Some(InvalidCString)
    else if d == Some(8) then Some(InvalidUtf8)
    else if d == Some(9) then Some(Callable)
    else if d == Some(10) then Some(Object)
    else if d == Some(12) then Some(IntegerOverflow)
    else if d == Some(14) then Some(StreamWrapperRegistrationFailure)
    else if d == Some(15) then Some(StreamWrapperUnregistrationFailure)
    else None
  }

  /** The foreign Display or Debug text carried by a message of a variant
      with a foreign payload. */
  function ForeignText(s: string): Option<string> {
    var d := Classify(s);
    if d == Some(1) then
      match StripPrefix(s, ZvalConversionLead)
      case None => None
      case Some(t) =>
        if |ZvalConversionTail| <= |t| && t[|t| - |ZvalConversionTail|..] == ZvalConversionTail
        then Some(t[..|t| - |ZvalConversionTail|])
        else None
    else if d == Some(3) then StripPrefix(s, TypeToDatatypeLead)
    else if d == Some(11) then StripPrefix(s, InvalidExceptionLead)
    else if d == Some(13) then StripPrefix(s, ExceptionLead)
    else None
  }

  // ---------------------------------------------------------------------
  // Properties of rendering.
  // ---------------------------------------------------------------------

  /** A text is not a prefix of a string it disagrees with at some position. */
  lemma NotPrefixAt(p: string, s: string, i: nat)
    requires i < |p| && i < |s| && p[i] != s[i]
    ensures !(p <= s)
  {
  }

  lemma LeadIsPrefix(p: string, t: string)
    ensures p <= p + t
  {
  }

  /** Every message names the variant it was rendered from, whatever the
      foreign payloads render to. */
  lemma ClassifyRender(e: Error, fmt: ForeignFormat)
    ensures Classify(Render(e, fmt)) == Some(Discriminant(e))
  {
    if e.IncorrectArguments? || e.UnknownDatatype? {
      ClassifyRenderNumeric(e, fmt);
    } else if HasForeignPayload(e) {
      ClassifyRenderForeign(e, fmt);
    } else if e.InvalidScope? || e.InvalidPointer? || e.InvalidUtf8? {
      ClassifyRenderInvalidPrefixed(e, fmt);
    } else if e.InvalidProperty? || e.InvalidCString? {
      ClassifyRenderPropertyAndCString(e, fmt);
    } else if e.Callable? || e.Object? || e.IntegerOverflow? {
      ClassifyRenderCallableToOverflow(e, fmt);
    } else {
      ClassifyRenderStreamWrapper(e, fmt);
    }
  }

  // The variants with numeric payloads.
  lemma ClassifyRenderNumeric(e: Error, fmt: ForeignFormat)
    requires e.IncorrectArguments? || e.UnknownDatatype?
    ensures Classify(Render(e, fmt)) == Some(Discriminant(e))
  {
    var s := Render(e, fmt);
    match e
    case IncorrectArguments(n, expected) =>
      LeadIsPrefix(ArgumentsLead, Dec(expected) + ArgumentsMiddle + Dec(n) + ArgumentsTail);
    case UnknownDatatype(dt) =>
      LeadIsPrefix(UnknownDatatypeLead, Dec(dt) + UnknownDatatypeTail);
      NotPrefixAt(ArgumentsLead, s, 0);
      NotPrefixAt(ZvalConversionLead, s, 0);
  }

  // The variants with foreign payloads.
  lemma ClassifyRenderForeign(e: Error, fmt: ForeignFormat)
    requires HasForeignPayload(e)
    ensures Classify(Render(e, fmt)) == Some(Discriminant(e))
  {
    var s := Render(e, fmt);
    match e
    case ZvalConversion(ty) =>
      LeadIsPrefix(ZvalConversionLead, fmt.dataTypeDisplay(ty) + ZvalConversionTail);
      NotPrefixAt(ArgumentsLead, s, 0);
    case InvalidTypeToDatatype(flags) =>
      LeadIsPrefix(TypeToDatatypeLead, fmt.typeFlagsDebug(flags));
      NotPrefixAt(ArgumentsLead, s, 0);
      NotPrefixAt(ZvalConversionLead, s, 0);
      NotPrefixAt(UnknownDatatypeLead, s, 0);
    case InvalidException(flags) =>
      LeadIsPrefix(InvalidExceptionLead, fmt.classFlagsDebug(flags));
      NotPrefixAt(ArgumentsLead, s, 0);
      NotPrefixAt(ZvalConversionLead, s, 0);
      NotPrefixAt(UnknownDatatypeLead, s, 0);
      NotPrefixAt(TypeToDatatypeLead, s, 0);
    case Exception(obj) =>
      LeadIsPrefix(ExceptionLead, fmt.objectDebug(obj));
      NotPrefixAt(ArgumentsLead, s, 2);
      NotPrefixAt(ZvalConversionLead, s, 0);
      NotPrefixAt(UnknownDatatypeLead, s, 0);
      NotPrefixAt(TypeToDatatypeLead, s, 0);
      NotPrefixAt(InvalidExceptionLead, s, 0);
  }

  // The payload-free messages that start with "Invalid ".
  lemma ClassifyRenderInvalidPrefixed(e: Error, fmt: ForeignFormat)
    requires e.InvalidScope? || e.InvalidPointer? || e.InvalidUtf8?
    ensures Classify(Render(e, fmt)) == Some(Discriminant(e))
  {
    var s := Render(e, fmt);
    match e
    case InvalidScope =>
      NotPrefixAt(ArgumentsLead, s, 0);
      NotPrefixAt(ZvalConversionLead, s, 0);
      NotPrefixAt(UnknownDatatypeLead, s, 0);
      NotPrefixAt(TypeToDatatypeLead, s, 0);
      NotPrefixAt(InvalidExceptionLead, s, 8);
      NotPrefixAt(ExceptionLead, s, 0);
    case InvalidPointer =>
      NotPrefixAt(ArgumentsLead, s, 0);
      NotPrefixAt(ZvalConversionLead, s, 0);
      NotPrefixAt(UnknownDatatypeLead, s, 0);
      NotPrefixAt(TypeToDatatypeLead, s, 0);
      NotPrefixAt(InvalidExceptionLead, s, 8);
      NotPrefixAt(ExceptionLead, s, 0);
    case InvalidUtf8 =>
      NotPrefixAt(ArgumentsLead, s, 0);
      NotPrefixAt(ZvalConversionLead, s, 0);
      NotPrefixAt(UnknownDatatypeLead, s, 0);
      NotPrefixAt(TypeToDatatypeLead, s, 0);
      NotPrefixAt(InvalidExceptionLead, s, 8);
      NotPrefixAt(ExceptionLead, s, 0);
  }

  // The messages of `InvalidProperty` and `InvalidCString`.
  lemma ClassifyRenderPropertyAndCString(e: Error, fmt: ForeignFormat)
    requires e.InvalidProperty? || e.InvalidCString?
    ensures Classify(Render(e, fmt)) == Some(Discriminant(e))
  {
    var s := Render(e, fmt);
    match e
    case InvalidProperty =>
      NotPrefixAt(ArgumentsLead, s, 0);
      NotPrefixAt(ZvalConversionLead, s, 0);
      NotPrefixAt(UnknownDatatypeLead, s, 0);
      NotPrefixAt(TypeToDatatypeLead, s, 0);
      NotPrefixAt(InvalidExceptionLead, s, 0);
      NotPrefixAt(ExceptionLead, s, 0);
    case InvalidCString =>
      NotPrefixAt(ArgumentsLead, s, 0);
      NotPrefixAt(ZvalConversionLead, s, 0);
      NotPrefixAt(UnknownDatatypeLead, s, 0);
      NotPrefixAt(TypeToDatatypeLead, s, 0);
      NotPrefixAt(InvalidExceptionLead, s, 0);
      NotPrefixAt(ExceptionLead, s, 0);
  }

  // The messages of `Callable`, `Object` and `IntegerOverflow`.
  lemma ClassifyRenderCallableToOverflow(e: Error, fmt: ForeignFormat)
    requires e.Callable? || e.Object? || e.IntegerOverflow?
    ensures Classify(Render(e, fmt)) == Some(Discriminant(e))
  {
    var s := Render(e, fmt);
    match e
    case Callable =>
      NotPrefixAt(ArgumentsLead, s, 0);
      NotPrefixAt(ZvalConversionLead, s, 11);
      NotPrefixAt(UnknownDatatypeLead, s, 0);
      NotPrefixAt(TypeToDatatypeLead, s, 0);
      NotPrefixAt(InvalidExceptionLead, s, 0);
      NotPrefixAt(ExceptionLead, s, 0);
    case Object =>
      NotPrefixAt(ArgumentsLead, s, 0);
      NotPrefixAt(ZvalConversionLead, s, 0);
      NotPrefixAt(UnknownDatatypeLead, s, 0);
      NotPrefixAt(TypeToDatatypeLead, s, 0);
      NotPrefixAt(InvalidExceptionLead, s, 0);
      NotPrefixAt(ExceptionLead, s, 0);
    case IntegerOverflow =>
      NotPrefixAt(ArgumentsLead, s, 0);
      NotPrefixAt(ZvalConversionLead, s, 2);
      NotPrefixAt(UnknownDatatypeLead, s, 0);
      NotPrefixAt(TypeToDatatypeLead, s, 0);
      NotPrefixAt(InvalidExceptionLead, s, 0);
      NotPrefixAt(ExceptionLead, s, 0);
  }

  // The messages of the two stream-wrapper failures.
  lemma ClassifyRenderStreamWrapper(e: Error, fmt: ForeignFormat)
    requires e.StreamWrapperRegistrationFailure? || e.StreamWrapperUnregistrationFailure?
    ensures Classify(Render(e, fmt)) == Some(Discriminant(e))
  {
    var s := Render(e, fmt);
    match e
    case StreamWrapperRegistrationFailure =>
      NotPrefixAt(ArgumentsLead, s, 0);
      NotPrefixAt(ZvalConversionLead, s, 0);
      NotPrefixAt(UnknownDatatypeLead, s, 0);
      NotPrefixAt(TypeToDatatypeLead, s, 0);
      NotPrefixAt(InvalidExceptionLead, s, 0);
      NotPrefixAt(ExceptionLead, s, 0);
    case StreamWrapperUnregistrationFailure =>
      NotPrefixAt(ArgumentsLead, s, 0);
      NotPrefixAt(ZvalConversionLead, s, 0);
      NotPrefixAt(UnknownDatatypeLead, s, 0);
      NotPrefixAt(TypeToDatatypeLead, s, 0);
      NotPrefixAt(InvalidExceptionLead, s, 0);
      NotPrefixAt(ExceptionLead, s, 0);
  }

  lemma StripPrefixConcat(p: string, t: string)
    ensures StripPrefix(p + t, p) == Some(t)
  {
    LeadIsPrefix(p, t);
  }

  lemma ReadNumberThenDec(n: nat, sep: string, rest: string)
    requires sep != [] && !IsDigit(sep[0])
    ensures ReadNumberThen(Dec(n) + (sep + rest), sep) == Some((n, rest))
  {
    ReadNumberDec(n, sep + rest);
    StripPrefixConcat(sep, rest);
  }

  /** An `IncorrectArguments` message reads back as the counts it was built
      from, with the SECOND field as the expected minimum and the first as
      the number received. */
  lemma ParseRenderIncorrectArguments(n: usize, expected: usize, fmt: ForeignFormat)
    ensures ParseIncorrectArguments(Render(IncorrectArguments(n, expected), fmt))
            == Some(ArgumentCounts(minimum := expected, received := n))
  {
    var afterMinimum := Dec(n) + (ArgumentsTail + []);
    var t := Dec(expected) + (ArgumentsMiddle + afterMinimum);
    assert Render(IncorrectArguments(n, expected), fmt) == ArgumentsLead + t;
    StripPrefixConcat(ArgumentsLead, t);
    ReadNumberThenDec(expected, ArgumentsMiddle, afterMinimum);
    ReadNumberThenDec(n, ArgumentsTail, []);
  }

  /** An `UnknownDatatype` message reads back as its payload, in decimal. */
  lemma ParseRenderUnknownDatatype(dt: u32, fmt: ForeignFormat)
    ensures ParseUnknownDatatype(Render(UnknownDatatype(dt), fmt)) == Some(dt)
  {
    var t := Dec(dt) + (UnknownDatatypeTail + []);
    assert Render(UnknownDatatype(dt), fmt) == UnknownDatatypeLead + t;
    StripPrefixConcat(UnknownDatatypeLead, t);
    ReadNumberThenDec(dt, UnknownDatatypeTail, []);
  }

  /** An error without a foreign payload is entirely determined by its
      message. */
  lemma RecoverRender(e: Error, fmt: ForeignFormat)
    requires !HasForeignPayload(e)
    ensures Recover(Render(e, fmt)) == Some(e)
  {
    ClassifyRender(e, fmt);
    match e
    case IncorrectArguments(n, expected) => ParseRenderIncorrectArguments(n, expected, fmt);
    case UnknownDatatype(dt) => ParseRenderUnknownDatatype(dt, fmt);
    case _ =>
  }

  /** The foreign Display or Debug text an error carries, if any. */
  function PayloadText(e: Error, fmt: ForeignFormat): Option<string> {
    match e
    case ZvalConversion(ty) => Some(fmt.dataTypeDisplay(ty))
    case InvalidTypeToDatatype(flags) => Some(fmt.typeFlagsDebug(flags))
    case InvalidException(flags) => Some(fmt.classFlagsDebug(flags))
    case Exception(obj) => Some(fmt.objectDebug(obj))
    case _ => None
  }

  /** A message with a foreign payload embeds that payload's text verbatim. */
  lemma ForeignTextRender(e: Error, fmt: ForeignFormat)
    requires HasForeignPayload(e)
    ensures ForeignText(Render(e, fmt)) == PayloadText(e, fmt)
  {
    ClassifyRender(e, fmt);
    var s := Render(e, fmt);
    match e
    case ZvalConversion(ty) =>
      var t := fmt.dataTypeDisplay(ty) + ZvalConversionTail;
      assert s == ZvalConversionLead + t;
      StripPrefixConcat(ZvalConversionLead, t);
      assert t[|t| - |ZvalConversionTail|..] == ZvalConversionTail;
      assert t[..|t| - |ZvalConversionTail|] == fmt.dataTypeDisplay(ty);
    case InvalidTypeToDatatype(flags) =>
      StripPrefixConcat(TypeToDatatypeLead, fmt.typeFlagsDebug(flags));
    case InvalidException(flags) =>
      StripPrefixConcat(InvalidExceptionLead, fmt.classFlagsDebug(flags));
    case Exception(obj) =>
      StripPrefixConcat(ExceptionLead, fmt.objectDebug(obj));
  }

  /** Errors of different variants never render to the same message; in
      particular the fixed messages are pairwise distinct. */
  lemma RenderSeparatesVariants(a: Error, b: Error, fmt: ForeignFormat)
    requires Discriminant(a) != Discriminant(b)
    ensures Render(a, fmt) != Render(b, fmt)
  {
    ClassifyRender(a, fmt);
    ClassifyRender(b, fmt);
  }

  /** Among errors without a foreign payload, equal messages mean equal
      errors. */
  lemma RenderInjective(a: Error, b: Error, fmt: ForeignFormat)
    requires !HasForeignPayload(a) && !HasForeignPayload(b)
    ensures Render(a, fmt) == Render(b, fmt) <==> a == b
  {
    RecoverRender(a, fmt);
    RecoverRender(b, fmt);
  }

  /** `IncorrectArguments(1, 3)` and `UnknownDatatype(255)`, rendered in
      full. */
  lemma RenderExamples(fmt: ForeignFormat)
    ensures Render(IncorrectArguments(1, 3), fmt) == "Expected at least 3 arguments, got 1 arguments."
    ensures Render(UnknownDatatype(255), fmt) == "Unknown datatype 255."
  {
  }

  // ---------------------------------------------------------------------
  // Ingest conversions.
  // ---------------------------------------------------------------------

  /** `impl From<NulError> for Error`: the position and bytes are dropped. */
  function FromNulError(err: NulError): (e: Error)
    ensures e == InvalidCString
  {
    InvalidCString
  }

  /** `impl From<TryFromIntError> for Error`. */
  function FromTryFromIntError(err: TryFromIntError): (e: Error)
    ensures e == IntegerOverflow
  {
    IntegerOverflow
  }

  /** A string is refused by `CString::new` exactly when it holds a NUL byte,
      wherever that byte is, and the refusal always converts to
      `InvalidCString`, whose message is fixed. */
  lemma NulStringBecomesInvalidCString(bytes: seq<byte>, fmt: ForeignFormat)
    ensures CStringNew(bytes).Err? <==> 0 in bytes
    ensures CStringNew(bytes).Err? ==>
              FromNulError(CStringNew(bytes).error) == InvalidCString
              && Render(FromNulError(CStringNew(bytes).error), fmt) == InvalidCStringMessage
  {
    if 0 in bytes {
      var i :| 0 <= i < |bytes| && bytes[i] == 0;
    }
  }

  /** A `u32` is refused by the narrowing to `i32` exactly when it exceeds
      `i32::MAX`, and the refusal always converts to `IntegerOverflow`. */
  lemma OverflowBecomesIntegerOverflow(x: u32, fmt: ForeignFormat)
    ensures TryIntoI32(x).Err? <==> x > I32_MAX
    ensures TryIntoI32(x).Err? ==>
              FromTryFromIntError(TryIntoI32(x).error) == IntegerOverflow
              && Render(FromTryFromIntError(TryIntoI32(x).error), fmt) == IntegerOverflowMessage
  {
  }

  // ---------------------------------------------------------------------
  // Egress conversion.
  // ---------------------------------------------------------------------

  /** The class of a PHP exception: the engine's default `Exception` class,
      or another class entry. */
  datatype ExceptionClass = DefaultExceptionClass | ClassEntry(id: nat)

  /** A PHP exception about to be thrown: its message and its class. */
  datatype PhpException = PhpException(message: string, exceptionClass: ExceptionClass)

  /** `PhpException::default(message)`. */
  function DefaultPhpException(message: string): PhpException {
    PhpException(message, DefaultExceptionClass)
  }

  /** `impl From<Error> for PhpException`: total over all variants, including
      `Exception`, whose engine object is rendered rather than rethrown. The
      exception has the default class and the rendered message, from which
      the variant, and every payload that is not foreign, can be read back. */
  function IntoPhpException(e: Error, fmt: ForeignFormat): (x: PhpException)
    ensures x.exceptionClass == DefaultExceptionClass
    ensures x.message == Render(e, fmt)
    ensures Classify(x.message) == Some(Discriminant(e))
    ensures !HasForeignPayload(e) ==> Recover(x.message) == Some(e)
    ensures HasForeignPayload(e) ==> ForeignText(x.message) == PayloadText(e, fmt)
  {
    ClassifyRender(e, fmt);
    if HasForeignPayload(e) then
      ForeignTextRender(e, fmt);
      DefaultPhpException(Render(e, fmt))
    else
      RecoverRender(e, fmt);
      DefaultPhpException(Render(e, fmt))
  }

  // ---------------------------------------------------------------------
  // The diagnostic emitter.
  // ---------------------------------------------------------------------

  /** PHP's error severity flags (`E_WARNING`, `E_NOTICE`, `E_DEPRECATED`,
      ...), as their `u32` bits. */
  datatype ErrorType = ErrorType(bits: u32)

  /** One call of the engine's `php_error_docref`: the documentation
      reference (None for a null pointer), the severity as a C `int`, and the
      message. The engine takes that last argument as a printf-style format
      and `php_error` passes no further arguments; the expansion of `%`
      directives happens inside the engine and is not part of this model. */
  datatype DocrefCall = DocrefCall(docref: Option<CString>, errorType: i32, message: CString)

  /** The host engine, seen through the diagnostics it has been sent. */
  class HostEngine {
    /** Every `php_error_docref` call received, oldest first. */
    var docrefCalls: seq<DocrefCall>

    constructor ()
      ensures docrefCalls == []
    {
      docrefCalls := [];
    }

    /** The native `php_error_docref`: reports one diagnostic. */
    method PhpErrorDocref(docref: Option<CString>, errorType: i32, message: CString)
      modifies this
      ensures docrefCalls == old(docrefCalls) + [DocrefCall(docref, errorType, message)]
    {
      docrefCalls := docrefCalls + [DocrefCall(docref, errorType, message)];
    }
  }

  /** `php_error`: reports `message` at severity `errorType` the way PHP's
      `trigger_error()` does. A message holding a NUL byte is silently
      dropped; otherwise exactly one native call is made, with a null
      documentation reference, the severity bits narrowed to `i32` and the
      message bytes. The narrowing panics when the bits exceed `i32::MAX`,
      which callers must rule out whenever the message gets that far. */
  method PhpError(engine: HostEngine, errorType: ErrorType, message: seq<byte>)
    requires NoNul(message) ==> errorType.bits <= I32_MAX
    modifies engine
    ensures !NoNul(message) ==> engine.docrefCalls == old(engine.docrefCalls)
    ensures NoNul(message) ==>
              engine.docrefCalls
              == old(engine.docrefCalls) + [DocrefCall(None, errorType.bits, CString(message))]
  {
    var cString := CStringNew(message);
    if cString.Err? {
      return;
    }
    var severity := TryIntoI32(errorType.bits);
    if severity.Err? {
      assert false;
    }
    engine.PhpErrorDocref(None, severity.value, cString.value);
  }

  /** The emitter's two behaviours on one engine: "foo" is reported once, a
      message with an embedded NUL is not reported at all. */
  method EmitterExamples(engine: HostEngine, severity: ErrorType)
    requires severity.bits <= I32_MAX
    modifies engine
    ensures engine.docrefCalls
            == old(engine.docrefCalls) + [DocrefCall(None, severity.bits, CString([0x66, 0x6F, 0x6F]))]
  {
    var foo: seq<byte> := [0x66, 0x6F, 0x6F];
    var withNul: seq<byte> := [0x66, 0x00, 0x6F];
    assert withNul[1] == 0;
    PhpError(engine, severity, foo);
    PhpError(engine, severity, withNul);
  }
}
