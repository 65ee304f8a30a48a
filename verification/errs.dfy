/**
 * pkg/errs: the framework's error value, how it renders itself, and the
 * accessors `Code` and `Msg` over Go's `error` interface.
 *
 * Go's `error` is an interface: it is either nil, or holds a `*Error` (which
 * may itself be a nil pointer, the "typed nil"), or holds some other error
 * type, of which only its `Error()` text matters here.
 */
module Errs {

  import opened Wrappers
  import opened Strings

  newtype int32 = x: int | -0x8000_0000 <= x < 0x8000_0000

  /** Go's int32(x) conversion: keeps the low 32 bits as a two's-complement value. */
  function ToInt32(x: int): (r: int32)
    ensures (r as int - x) % 0x1_0000_0000 == 0
    ensures -0x8000_0000 <= x < 0x8000_0000 ==> r as int == x
  {
    var m := x % 0x1_0000_0000;
    if m >= 0x8000_0000 then (m - 0x1_0000_0000) as int32 else m as int32
  }

  // Framework return codes.
  const RetOK: int := 0
  const RetServerDecodeFail: int := 1
  const RetServerEncodeFail: int := 2
  const RetServerNoService: int := 11
  const RetServerNoFunc: int := 12
  const RetServerTimeout: int := 21
  const RetServerOverload: int := 22
  const RetServerSystemErr: int := 31
  const RetServerAuthFail: int := 41
  const RetServerValidateFail: int := 51
  const RetClientTimeout: int := 101
  const RetClientConnectFail: int := 111
  const RetClientEncodeFail: int := 121
  const RetClientDecodeFail: int := 122
  const RetClientRouteErr: int := 131
  const RetClientNetErr: int := 141
  const RetClientValidateFail: int := 151
  const RetClientCanceled: int := 161
  const RetClientStreamQueueFull: int := 201
  const RetUnknown: int := 999

  // Error types.
  const ErrorTypeFramework: int := 1
  const ErrorTypeBusiness: int := 2
  const ErrorTypeCalleeFramework: int := 3

  const Success: string := "Success"

  /** The `Error` struct; the captured call stack is not part of this model. */
  datatype Error = Error(typ: int, code: int32, msg: string, desc: string)

  /** A value of Go's `error` interface. `ErrsPtr(None)` is a typed nil `*Error`. */
  datatype GoError = Nil | ErrsPtr(ptr: Option<Error>) | Foreign(text: string)

  // ---------------------------------------------------------------- rendering

  function TypeLabel(typ: int): string {
    if typ == ErrorTypeFramework then "type:framework"
    else if typ == ErrorTypeCalleeFramework then "type:callee framework"
    else "type:business"
  }

  /** (*Error).Error(): "Success" for a nil pointer, otherwise the type label,
      the code and the message. */
  function ErrorString(e: Option<Error>): string {
    match e
    case None => Success
    case Some(err) => TypeLabel(err.typ) + ", code:" + IntToString(err.code as int) + ", msg:" + err.msg
  }

  /** What `%v` prints for an `error`: "<nil>" for the nil interface, else its Error() text. */
  function ErrorText(e: GoError): string {
    match e
    case Nil => "<nil>"
    case ErrsPtr(p) => ErrorString(p)
    case Foreign(t) => t
  }

  /** The three ways an Error renders, and what a rendering shows of an error. */
  datatype Kind = Framework | CalleeFramework | Business
  datatype Rendered = RenderedSuccess | Rendered(kind: Kind, code: int, msg: string)

  function KindOf(typ: int): Kind {
    if typ == ErrorTypeFramework then Framework
    else if typ == ErrorTypeCalleeFramework then CalleeFramework
    else Business
  }

  function Summary(e: Option<Error>): Rendered {
    match e
    case None => RenderedSuccess
    case Some(err) => Rendered(KindOf(err.typ), err.code as int, err.msg)
  }

  /** The first index of `c` in `s`, or -1. */
  function IndexOfChar(s: string, c: char): (r: int)
    ensures r == -1 ==> c !in s
    ensures r != -1 ==> 0 <= r < |s| && s[r] == c && c !in s[..r]
  {
    if s == [] then -1
    else if s[0] == c then 0
    else
      var r := IndexOfChar(s[1..], c);
      assert s[1..] == s[1..][..|s| - 1];
      if r == -1 then -1 else (assert s[..r + 1] == [s[0]] + s[1..][..r]; r + 1)
  }

  function ParseRenderedTail(kind: Kind, t: string): Option<Rendered> {
    var i := IndexOfChar(t, ',');
    if i < 0 || !HasPrefix(t[i..], ", msg:") then None
    else
      match ParseInt(t[..i])
      case None => None
      case Some(c) => Some(Rendered(kind, c, t[i + 6..]))
  }

  /** Reads a rendering back. */
  function ParseErrorString(s: string): Option<Rendered> {
    if s == Success then Some(RenderedSuccess)
    else if HasPrefix(s, "type:framework, code:") then ParseRenderedTail(Framework, s[21..])
    else if HasPrefix(s, "type:callee framework, code:") then ParseRenderedTail(CalleeFramework, s[28..])
    else if HasPrefix(s, "type:business, code:") then ParseRenderedTail(Business, s[20..])
    else None
  }

  lemma IndexOfCharAfter(x: string, y: string, c: char)
    requires c !in x && y != [] && y[0] == c
    ensures IndexOfChar(x + y, c) == |x|
  {
    if x != [] {
      assert (x + y)[1..] == x[1..] + y;
      IndexOfCharAfter(x[1..], y, c);
    }
  }

  lemma ParseRenderedTailOf(kind: Kind, code: int, msg: string)
    ensures ParseRenderedTail(kind, IntToString(code) + ", msg:" + msg) == Some(Rendered(kind, code, msg))
  {
    var d := IntToString(code);
    var t := d + ", msg:" + msg;
    assert t == d + (", msg:" + msg);
    IndexOfCharAfter(d, ", msg:" + msg, ',');
    assert t[..|d|] == d;
    assert t[|d|..] == ", msg:" + msg;
    assert t[|d| + 6..] == msg;
    IntToStringRoundTrip(code);
  }

  lemma ParseFramework(tail: string)
    ensures ParseErrorString("type:framework, code:" + tail) == ParseRenderedTail(Framework, tail)
  {
    var s := "type:framework, code:" + tail;
    assert s[0] == 't' && s[..21] == "type:framework, code:" && s[21..] == tail;
  }

  lemma ParseCalleeFramework(tail: string)
    ensures ParseErrorString("type:callee framework, code:" + tail) == ParseRenderedTail(CalleeFramework, tail)
  {
    var s := "type:callee framework, code:" + tail;
    assert s[0] == 't' && s[5] == 'c' && s[..28] == "type:callee framework, code:" && s[28..] == tail;
    assert s != Success;
    assert !HasPrefix(s, "type:framework, code:") by {
      if |s| >= 21 { assert s[..21][5] == 'c'; }
    }
  }

  lemma ParseBusiness(tail: string)
    ensures ParseErrorString("type:business, code:" + tail) == ParseRenderedTail(Business, tail)
  {
    var s := "type:business, code:" + tail;
    assert s[0] == 't' && s[5] == 'b' && s[..20] == "type:business, code:" && s[20..] == tail;
    assert s != Success;
    assert !HasPrefix(s, "type:framework, code:") by {
      if |s| >= 21 { assert s[..21][5] == 'b'; }
    }
    assert !HasPrefix(s, "type:callee framework, code:") by {
      if |s| >= 28 { assert s[..28][5] == 'b'; }
    }
  }

  /** The rendering loses nothing but the description and the exact type number:
      kind, code and message can be read back from it, and a nil pointer is told
      apart from every error. */
  lemma ErrorStringRoundTrip(e: Option<Error>)
    ensures ParseErrorString(ErrorString(e)) == Some(Summary(e))
  {
    if e.Some? {
      var err := e.value;
      var tail := IntToString(err.code as int) + ", msg:" + err.msg;
      var head := TypeLabel(err.typ) + ", code:";
      RenderingSplits(TypeLabel(err.typ), IntToString(err.code as int), err.msg);
      assert ErrorString(e) == head + tail;
      ParseRenderedTailOf(KindOf(err.typ), err.code as int, err.msg);
      if err.typ == ErrorTypeFramework {
        assert head == "type:framework, code:";
        ParseFramework(tail);
      } else if err.typ == ErrorTypeCalleeFramework {
        assert head == "type:callee framework, code:";
        ParseCalleeFramework(tail);
      } else {
        assert head == "type:business, code:";
        ParseBusiness(tail);
      }
    }
  }

  lemma RenderingSplits(typeLabel: string, digits: string, msg: string)
    ensures typeLabel + ", code:" + digits + ", msg:" + msg == (typeLabel + ", code:") + (digits + ", msg:" + msg)
  {
  }

  /** Two errors render alike exactly when they agree on kind, code and message. */
  lemma ErrorStringInjective(a: Option<Error>, b: Option<Error>)
    requires ErrorString(a) == ErrorString(b)
    ensures Summary(a) == Summary(b)
  {
    ErrorStringRoundTrip(a);
    ErrorStringRoundTrip(b);
  }

  // ---------------------------------------------------------------- traceability

  /** The package's two globals, set by SetTraceable and SetTraceableWithContent. */
  class Tracing {
    var traceable: bool
    var content: string

    constructor ()
      ensures !traceable && content == ""
    {
      traceable := false;
      content := "";
    }

    method SetTraceable(x: bool)
      modifies this
      ensures traceable == x && content == old(content)
    {
      traceable := x;
    }

    method SetTraceableWithContent(c: string)
      modifies this
      ensures traceable && content == c
    {
      traceable := true;
      content := c;
    }
  }

  /** isOutput: a stack line is printed when it contains the configured content. */
  predicate IsOutput(str: string, content: string) {
    Contains(str, content)
  }

  /** With no content configured every stack line is printed; a line shorter than
      the content never is. */
  lemma IsOutputBounds(str: string, content: string)
    ensures content == "" ==> IsOutput(str, content)
    ensures |str| < |content| ==> !IsOutput(str, content)
  {
    if content == "" {
      assert OccursAt(str, content, 0);
    }
  }

  /** The stack lines `%+v` prints after the message: each frame on a new line,
      kept when the line passes the content filter. */
  function TracedFrames(frames: seq<string>, content: string): string {
    if frames == [] then ""
    else
      var line := "\n" + frames[|frames| - 1];
      TracedFrames(frames[..|frames| - 1], content) + (if IsOutput(line, content) then line else "")
  }

  /** With no content filter, `%+v` prints every frame. */
  lemma {:induction false} TracedFramesUnfiltered(frames: seq<string>)
    ensures TracedFrames(frames, "") == AllFrames(frames)
  {
    if frames != [] {
      TracedFramesUnfiltered(frames[..|frames| - 1]);
      IsOutputBounds("\n" + frames[|frames| - 1], "");
    }
  }

  function AllFrames(frames: seq<string>): string {
    if frames == [] then "" else AllFrames(frames[..|frames| - 1]) + "\n" + frames[|frames| - 1]
  }

  /** The `%+v` case of Format: the message, then each stack line that passes the filter. */
  method WriteTraced(message: string, frames: seq<string>, content: string) returns (out: string)
    ensures out == message + TracedFrames(frames, content)
  {
    out := message;
    var i := 0;
    while i < |frames|
      invariant 0 <= i <= |frames|
      invariant out == message + TracedFrames(frames[..i], content)
    {
      var str := "\n" + frames[i];
      assert frames[..i + 1][..i] == frames[..i];
      if IsOutput(str, content) {
        out := out + str;
      }
      i := i + 1;
    }
    assert frames[..|frames|] == frames;
  }

  /** (*Error).Format for the verbs fmt passes to it. `%+v` walks the stack, so
      on a nil pointer it panics: that case is excluded. `%q` quotes as
      strconv.Quote does, `widePrint` deciding printability above U+00FF. */
  method Format(tracing: Tracing, e: Option<Error>, verb: char, plus: bool, frames: seq<string>,
                widePrint: char -> bool)
    returns (out: string)
    requires verb == 'v' && plus ==> e.Some?
    ensures verb == 'v' && plus ==> out == ErrorString(e) + TracedFrames(frames, tracing.content)
    ensures (verb == 'v' && !plus) || verb == 's' ==> out == ErrorString(e)
    ensures verb == 'q' ==> out == Quote(ErrorString(e), widePrint)
    ensures verb != 'v' && verb != 's' && verb != 'q' ==>
              out == "%!" + [verb] + "(errs.Error=" + ErrorString(e) + ")"
  {
    var text := ErrorString(e);
    if verb == 'v' && plus {
      out := WriteTraced(text, frames, tracing.content);
    } else if verb == 'v' || verb == 's' {
      out := text;
    } else if verb == 'q' {
      out := Quote(text, widePrint);
    } else {
      out := "%!" + [verb] + "(errs.Error=" + text + ")";
    }
  }

  // ---------------------------------------------------------------- constructors and accessors

  /** New: a business error; the code is converted to int32. */
  function New(code: int, msg: string): (e: GoError)
    ensures e.ErrsPtr? && e.ptr.Some?
    ensures e.ptr.value.typ == ErrorTypeBusiness && e.ptr.value.code == ToInt32(code)
    ensures e.ptr.value.msg == msg && e.ptr.value.desc == ""
  {
    ErrsPtr(Some(Error(ErrorTypeBusiness, ToInt32(code), msg, "")))
  }

  /**
   * Newf for the one format shape this code base gives it: fixed text followed by
   * a `%v` of an error. The message is that text followed by the error's `%v`
   * rendering.
   */
  function Newf(code: int, text: string, cause: GoError): (e: GoError)
    ensures e.ErrsPtr? && e.ptr.Some? && e.ptr.value.typ == ErrorTypeBusiness
    ensures Code(e) == ToInt32(code) as int && Msg(e) == text + ErrorText(cause)
  {
    New(code, text + ErrorText(cause))
  }

  /** NewFrameError: a framework error described as "svr". */
  function NewFrameError(code: int, msg: string): (e: GoError)
    ensures e.ErrsPtr? && e.ptr.Some?
    ensures e.ptr.value.typ == ErrorTypeFramework && e.ptr.value.code == ToInt32(code)
    ensures e.ptr.value.msg == msg && e.ptr.value.desc == "svr"
  {
    ErrsPtr(Some(Error(ErrorTypeFramework, ToInt32(code), msg, "svr")))
  }

  // The framework's predefined errors.
  const ErrServerNoService: GoError := NewFrameError(RetServerNoService, "server router no service")
  const ErrServerNoFunc: GoError := NewFrameError(RetServerNoFunc, "server router no rpc method")
  const ErrServerTimeout: GoError := NewFrameError(RetServerTimeout, "server message handle timeout")
  const ErrServerOverload: GoError := NewFrameError(RetServerOverload, "server overload")
  const ErrServerRoutinePoolBusy: GoError := NewFrameError(RetServerOverload, "server goroutine pool too small")
  const ErrServerClose: GoError := NewFrameError(RetServerSystemErr, "server close")
  const ErrServerNoResponse: GoError := NewFrameError(RetOK, "server no response")
  const ErrClientNoResponse: GoError := NewFrameError(RetOK, "client no response")
  const ErrUnknown: GoError := NewFrameError(RetUnknown, "unknown error")

  /** Code: 0 for nil and for a typed nil, RetUnknown for a foreign error. */
  function Code(e: GoError): (c: int)
    ensures e.Nil? ==> c == 0
    ensures e.Foreign? ==> c == RetUnknown
    ensures e.ErrsPtr? && e.ptr.None? ==> c == 0
    ensures e.ErrsPtr? && e.ptr.Some? ==> c == e.ptr.value.code as int
  {
    match e
    case Nil => 0
    case Foreign(_) => RetUnknown
    case ErrsPtr(p) => if p.None? then 0 else p.value.code as int
  }

  /** Msg: "Success" for nil and for a typed nil, the Error() text of a foreign error. */
  function Msg(e: GoError): (m: string)
    ensures e.Nil? ==> m == Success
    ensures e.Foreign? ==> m == e.text
    ensures e.ErrsPtr? && e.ptr.None? ==> m == Success
    ensures e.ErrsPtr? && e.ptr.Some? ==> m == e.ptr.value.msg
  {
    match e
    case Nil => Success
    case Foreign(t) => t
    case ErrsPtr(p) => if p.None? then Success else p.value.msg
  }

  /** Code and Msg give back what New and NewFrameError were given, for any code
      that fits in 32 bits; a code outside that range comes back wrapped. */
  lemma NewRoundTrip(code: int, msg: string)
    ensures Msg(New(code, msg)) == msg && Msg(NewFrameError(code, msg)) == msg
    ensures (Code(New(code, msg)) - code) % 0x1_0000_0000 == 0
    ensures -0x8000_0000 <= code < 0x8000_0000 ==>
              Code(New(code, msg)) == code && Code(NewFrameError(code, msg)) == code
  {
  }

  /** The text of a new error reads back as its type, its int32 code and its message. */
  lemma NewRendered(code: int, msg: string)
    ensures ParseErrorString(ErrorText(New(code, msg))) == Some(Rendered(Business, ToInt32(code) as int, msg))
    ensures ParseErrorString(ErrorText(NewFrameError(code, msg))) == Some(Rendered(Framework, ToInt32(code) as int, msg))
  {
    ErrorStringRoundTrip(New(code, msg).ptr);
    ErrorStringRoundTrip(NewFrameError(code, msg).ptr);
  }
}
