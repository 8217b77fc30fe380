# Error algebra of the ext-php-rs binding layer, in Dafny

This project models `src/error.rs` of ext-php-rs, the Rust library for
writing PHP extensions. It covers four parts:

- the library's closed error type `Error`, with its 16 variants, and the
  `Result<T, E = Error>` alias;
- the `Display` rendering of every variant into its fixed message template;
- the ingest conversions `From<NulError>` and `From<TryFromIntError>`, and the
  egress conversion `From<Error> for PhpException`;
- the diagnostic emitter `php_error`, which reports a message to the PHP
  engine through `php_error_docref`.

Files:

- `wrappers.dfy`: Rust's `Option` and `Result`.
- `decimal.dfy`: Rust's decimal `Display` of unsigned integers (`Dec`), and
  a reader (`ReadNumber`) proved to invert it.
- `rust_std.dfy`: the standard-library pieces `php_error` uses. These are
  `CString::new` with its `NulError`, and the checked narrowing `u32 -> i32`
  with its `TryFromIntError`. It also defines the integer widths `u32`,
  `usize`, `i32` and `byte`.
- `error.dfy`: module `PhpErrors`, the core.

`Render` has no contract of its own. What a message means is stated by a
reading partner. `Classify` gives back the variant a message came from.
`Recover` gives back the whole error when no payload is foreign.
`ForeignText` gives back the embedded foreign text. Lemmas prove each reader
correct on every rendered message. So messages of different variants never
collide, the fixed messages are pairwise distinct, and the numeric payloads
appear in decimal and can be read back.

The engine is a `HostEngine` object. Its field `docrefCalls` logs every
`php_error_docref` call it receives. `php_error` is a method that appends to
that log at most once.

Where the documentation and the code disagree, the model follows the code:

- The doc comment of `IncorrectArguments` (src/error.rs:28-30) says the first
  field is the expected minimum and the second the received count. `Display`
  (src/error.rs:78-81) prints the second field as the minimum and the first
  as the received count. The model names the fields `received` and
  `expected`, in that order. `ParseRenderIncorrectArguments` proves that the
  message reports the second field as the minimum.

`Error` declares sixteen variants (src/error.rs:25-73), and all sixteen are
modelled.

## Model

| member | source | states |
|---|---|---|
| `Decimal.Dec` | src/error.rs:80 | the decimal text of a count is a non-empty run of ASCII digits with no leading zero, except "0" itself |
| `Decimal.DecValueDec` | src/error.rs:86 | reading the digits back gives the number that was rendered |
| `Decimal.DecInjective` | src/error.rs:86 | two numbers render to the same decimal text exactly when they are equal |
| `Decimal.DigitRun` | src/error.rs:80 | the length of the leading run of digits: every character in it is a digit, and the character after it is not |
| `Decimal.ReadNumber` | src/error.rs:80 | a number is read exactly when the text starts with a digit, and what remains is a proper suffix |
| `Decimal.ReadNumberDec` | src/error.rs:80 | a rendered number followed by a non-digit reads back as that number and the text after it |
| `RustStd.FirstNul` | src/error.rs:148 | the first NUL byte, if any: none exactly when the bytes hold no NUL, otherwise its index, with no NUL before it |
| `RustStd.CStringNew` | src/error.rs:148-150 | `CString::new` succeeds exactly on bytes without NUL and keeps them; otherwise the error records the bytes and the first NUL's position |
| `RustStd.TryIntoI32` | src/error.rs:155 | the narrowing of the severity bits succeeds exactly when they are at most `i32::MAX`, and keeps the value |
| `PhpErrors.Render` | src/error.rs:75-118 | the `Display` match, total over all sixteen variants; it has no contract of its own, and its meaning is stated by `ClassifyRender`, `RecoverRender`, `ForeignTextRender` and `ParseRenderIncorrectArguments` |
| `PhpErrors.Discriminant` | src/error.rs:25-73 | each of the 16 variants has its own index below 16, in declaration order: the variant holds exactly when the index is its position |
| `PhpErrors.StripPrefix` | src/error.rs:77-116 | removes a template's leading text: it succeeds exactly when the text is a prefix, and gives the rest |
| `PhpErrors.ClassifyRender` | src/error.rs:77-116 | every variant's message, whatever its foreign payloads render to, names that variant and no other, so the match is exhaustive and every arm gives its own template |
| `PhpErrors.ClassifyRenderNumeric` | src/error.rs:78-86 | the messages of `IncorrectArguments` and `UnknownDatatype` name their variants |
| `PhpErrors.ClassifyRenderForeign` | src/error.rs:82-106 | the messages of `ZvalConversion`, `InvalidTypeToDatatype`, `InvalidException` and `Exception` name their variants |
| `PhpErrors.ClassifyRenderInvalidPrefixed` | src/error.rs:90-97 | the fixed messages of `InvalidScope`, `InvalidPointer` and `InvalidUtf8` name their variants |
| `PhpErrors.ClassifyRenderPropertyAndCString` | src/error.rs:92-96 | the fixed messages of `InvalidProperty` and `InvalidCString` name their variants |
| `PhpErrors.ClassifyRenderCallableToOverflow` | src/error.rs:98-105 | the fixed messages of `Callable`, `Object` and `IntegerOverflow` name their variants |
| `PhpErrors.ClassifyRenderStreamWrapper` | src/error.rs:107-115 | the fixed messages of both stream-wrapper failures name their variants |
| `PhpErrors.ParseRenderIncorrectArguments` | src/error.rs:78-81 | `IncorrectArguments(n, expected)` reads as "Expected at least expected arguments, got n arguments.": the second field is reported as the minimum, the first as the count received, both in decimal |
| `PhpErrors.ParseRenderUnknownDatatype` | src/error.rs:86 | `UnknownDatatype(dt)` reads as "Unknown datatype dt." with `dt` in decimal |
| `PhpErrors.RecoverRender` | src/error.rs:77-116 | an error whose payloads are numbers or absent is recovered exactly from its message |
| `PhpErrors.ForeignTextRender` | src/error.rs:82-106 | a message with a foreign payload embeds that payload's Display or Debug text verbatim, between the template's fixed parts |
| `PhpErrors.RenderSeparatesVariants` | src/error.rs:90-115 | errors of different variants render to different messages; in particular the payload-free messages are pairwise distinct |
| `PhpErrors.RenderInjective` | src/error.rs:77-116 | among errors without foreign payloads, two errors render alike exactly when they are equal |
| `PhpErrors.RenderExamples` | src/error.rs:78-86 | `IncorrectArguments(1, 3)` renders "Expected at least 3 arguments, got 1 arguments." and `UnknownDatatype(255)` renders "Unknown datatype 255." |
| `PhpErrors.FromNulError` | src/error.rs:122-126 | every `NulError`, whatever its position and bytes, converts to `InvalidCString` |
| `PhpErrors.FromTryFromIntError` | src/error.rs:128-132 | every `TryFromIntError` converts to `IntegerOverflow` |
| `PhpErrors.NulStringBecomesInvalidCString` | src/error.rs:122-126 | a byte string is refused as a C string exactly when it holds a NUL byte, wherever it is; the refusal converts to `InvalidCString` with its fixed message |
| `PhpErrors.OverflowBecomesIntegerOverflow` | src/error.rs:128-132 | a `u32` is refused by the narrowing to `i32` exactly when it exceeds `i32::MAX`; the refusal converts to `IntegerOverflow` with its fixed message |
| `PhpErrors.IntoPhpException` | src/error.rs:134-138 | every error, `Exception` included, converts to an exception of the default class whose message is its rendering; the message names the variant and gives back every non-foreign error and every foreign payload text |
| `PhpErrors.HostEngine.PhpErrorDocref` | src/error.rs:153-157 | the native call appends exactly one record (reference, severity, message) to the engine's log |
| `PhpErrors.PhpError` | src/error.rs:147-159 | a message with a NUL byte leaves the log unchanged; otherwise the log grows by exactly one call with a null reference, the severity bits as `i32` and the message bytes; the bits must fit `i32` only when the message gets past the NUL check |
| `PhpErrors.EmitterExamples` | src/error.rs:147-159 | "foo" at a valid severity is reported once with that severity and those bytes, and a message with an embedded NUL adds nothing |

## Left out

- Ownership of the `ZBox<ZendObject>` in `Exception`: the release-on-drop of the boxed engine object is handled by the box's own wrapper. The object is an opaque value (`ZendObject(handle)`), and the model does not track moves or releases.
- The real `Display` of `DataType` and the `Debug` of `ZvalTypeFlags`, `ClassFlags` and `ZendObject` are defined outside `src/error.rs`. They are parameters of the model (`ForeignFormat`), and every property holds for any choice of them.
- `PhpException::default`: the model keeps only "default class, given message" (`DefaultPhpException`). The exception code and the real class entry are not part of this model.
- `php_error_docref`: its body in the PHP engine is not modelled. A call is one record appended to `HostEngine.docrefCalls`.
- `PhpError`: the engine treats the message as a printf-style format, and `php_error` passes no arguments for it. So a message containing `%` is not reported verbatim, and `%s` would read an argument that was never passed. The engine's format expansion is not modelled: the log records the bytes handed over.
- The `CString` allocation and its pointer: a `CString` is its bytes without the terminator.
- `PhpError`: the `&str` message is taken as its UTF-8 bytes. Encoding text to UTF-8 is not modelled. This loses nothing for the NUL check, because in UTF-8 only the character U+0000 encodes to a zero byte.
- `PhpError`: the panic of `expect` when the severity bits exceed `i32::MAX` is a precondition. The model does not describe the panic itself.
- The bit layout of `ErrorType` (`E_WARNING`, `E_DEPRECATED`, ...) is defined outside `src/error.rs`. The model keeps only its `u32` bits, so `EmitterExamples` takes any severity that fits `i32` rather than the value of `E_DEPRECATED`.
- `impl ErrorTrait for Error` and `#[non_exhaustive]` carry no behaviour.
- The payload types `DataType`, `ZvalTypeFlags` and `ClassFlags` are opaque values, with a number standing in for their contents.
- Message templates longer than 30 characters are written as concatenations of shorter string literals, which spell the same text. This keeps proofs about their characters small.
