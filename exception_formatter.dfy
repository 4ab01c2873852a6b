/**
 * `ExceptionFormatterExtensions.ExceptionToString`: a description of an exception assembled in a
 * buffer, in the fixed order header, custom fields, inner-exception section, stack trace.
 */
module ExceptionFormatter {
  import opened Wrappers
  import opened Formatting

  /**
   * What the formatter reads from an exception: its type's simple name, its message, the text of
   * its inner exception (`InnerException.ToString()`, absent when null) and its stack trace.
   */
  datatype ExceptionInfo = ExceptionInfo(
    typeName: string,
    message: string,
    innerException: Option<string>,
    stackTrace: Option<string>)

  const HeaderTemplate: string := "{0}: {1}"
  const InnerTemplate: string := " ---> {0}"
  const EndOfInnerTemplate: string := "{0}" + EndOfInnerStackTrace + "{0}"
  /** The line .NET writes where an inner exception's stack trace ends: "   --- End of inner exception stack trace ---". */
  const EndOfInnerStackTrace: string := ("   --- End" + " of inner") + (" exception stack" + " trace ---")

  /** The type name and the message, separated by ": ". */
  function Header(ex: ExceptionInfo): string
  {
    ex.typeName + ": " + ex.message
  }

  /**
   * The text a custom-fields action appends, given what the buffer already holds; a null action
   * appends nothing.
   */
  function CustomText(customFields: Option<string -> string>, soFar: string): string
  {
    match customFields
    case None => ""
    case Some(action) => action(soFar)
  }

  /** The marker, the inner exception, and the end-of-inner-trace line between two line breaks. */
  function InnerSection(ex: ExceptionInfo, newLine: string): string
  {
    match ex.innerException
    case None => ""
    case Some(inner) => (" ---> " + inner) + (newLine + EndOfInnerStackTrace + newLine)
  }

  /** `Append` of a null stack trace appends nothing. */
  function StackText(ex: ExceptionInfo): string
  {
    match ex.stackTrace
    case None => ""
    case Some(trace) => trace
  }

  lemma HeaderFormat(typeName: string, message: string)
    ensures Format(HeaderTemplate, [typeName, message]) == Some(typeName + ": " + message)
  {
    assert NoBraces(": ");
    assert HeaderTemplate == ['{', '0', '}'] + ": " + ['{', '1', '}'];
    TwoPlaceholders(": ", typeName, message);
  }

  lemma InnerFormat(inner: string)
    ensures Format(InnerTemplate, [inner]) == Some(" ---> " + inner)
  {
    assert NoBraces(" ---> ");
    assert InnerTemplate == " ---> " + ['{', '0', '}'];
    LiteralThenPlaceholder(" ---> ", inner);
  }

  lemma EndOfInnerNoBraces()
    ensures NoBraces(EndOfInnerStackTrace)
  {
    var (a, b, c, d) := ("   --- End", " of inner", " exception stack", " trace ---");
    assert NoBraces(a) && NoBraces(b) && NoBraces(c) && NoBraces(d);
    NoBracesJoin(a, b);
    NoBracesJoin(c, d);
    NoBracesJoin(a + b, c + d);
  }

  lemma EndOfInnerFormat(newLine: string)
    ensures Format(EndOfInnerTemplate, [newLine]) == Some(newLine + EndOfInnerStackTrace + newLine)
  {
    EndOfInnerNoBraces();
    assert EndOfInnerTemplate == ['{', '0', '}'] + EndOfInnerStackTrace + ['{', '0', '}'];
    PlaceholderAround(EndOfInnerStackTrace, newLine);
  }

  /**
   * The inner-exception step of `ExceptionToString`: with an inner exception, the marker and the
   * end-of-inner-trace line are appended through their templates; without one the buffer is kept.
   */
  method AppendInnerException(buffer: string, ex: ExceptionInfo, newLine: string) returns (description: string)
    ensures description == buffer + InnerSection(ex, newLine)
  {
    description := buffer;
    if ex.innerException.Some? {
      var inner := ex.innerException.value;
      InnerFormat(inner);
      var marker := Format(InnerTemplate, [inner]);
      EndOfInnerFormat(newLine);
      var trailer := Format(EndOfInnerTemplate, [newLine]);
      description := description + marker.value + trailer.value;
    }
  }

  /**
   * `ex.ExceptionToString(customFieldsFormatterAction)`, with `Environment.NewLine` as `newLine`.
   * The description starts with the header, which the later segments never alter; a null action
   * adds nothing and a non-null one appends right after the header; an inner exception inserts
   * its section before the stack trace, which always ends the description.
   */
  method ExceptionToString(ex: ExceptionInfo, customFields: Option<string -> string>, newLine: string)
    returns (description: string)
    ensures description == Header(ex) + CustomText(customFields, Header(ex)) + InnerSection(ex, newLine) + StackText(ex)
    ensures |description| >= |Header(ex)| && description[..|Header(ex)|] == Header(ex)
    ensures |description| >= |StackText(ex)| && description[|description| - |StackText(ex)|..] == StackText(ex)
    ensures ex.innerException.None? ==> description == Header(ex) + CustomText(customFields, Header(ex)) + StackText(ex)
  {
    description := "";
    HeaderFormat(ex.typeName, ex.message);
    var header := Format(HeaderTemplate, [ex.typeName, ex.message]);
    description := description + header.value;
    ghost var h := description;
    assert h == Header(ex);
    if customFields.Some? {
      description := description + customFields.value(description);
    }
    ghost var c := CustomText(customFields, h);
    assert description == h + c;
    description := AppendInnerException(description, ex, newLine);
    ghost var i := InnerSection(ex, newLine);
    description := description + StackText(ex);
    Segments(h, c, i, StackText(ex));
  }

  /** The first of four joined segments is a prefix, the last a suffix, and empty ones vanish. */
  lemma Segments(h: string, c: string, i: string, s: string)
    ensures |h + c + i + s| >= |h| && (h + c + i + s)[..|h|] == h
    ensures |h + c + i + s| >= |s| && (h + c + i + s)[|h + c + i + s| - |s|..] == s
    ensures i == "" ==> h + c + i + s == h + c + s
  {
    var all := h + c + i + s;
    assert all == h + (c + i + s);
    assert all == (h + c + i) + s;
  }
}
