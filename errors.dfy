/** The crate's error type, `PostSchedulerError`, and the message its `Display`
    implementation renders. */
module Errors {

  /** The one variant, `InvalidArgument`: which argument, the offending value, and a
      remedy for the user. */
  datatype PostSchedulerError = InvalidArgument(argumentName: string, value: string, message: string)

  const RenderedPrefix: string := "Invalid value \""

  /** The rendered message, `Invalid value "{value}" for argument {argument_name}. {message}`. */
  function Render(e: PostSchedulerError): (r: string)
    ensures |r| == |RenderedPrefix| + |e.value| + 15 + |e.argumentName| + 2 + |e.message|
    ensures r[..|RenderedPrefix|] == RenderedPrefix
    ensures r[|RenderedPrefix|..|RenderedPrefix| + |e.value|] == e.value
    ensures var k := |RenderedPrefix| + |e.value|;
      && r[k..k + 15] == "\" for argument "
      && r[k + 15..k + 15 + |e.argumentName|] == e.argumentName
      && r[k + 15 + |e.argumentName|..k + 17 + |e.argumentName|] == ". "
    ensures r[|r| - |e.message|..] == e.message
  {
    RenderedPrefix + e.value + "\" for argument " + e.argumentName + ". " + e.message
  }

  /** Two errors about the same argument and value render alike only when their
      remedies are the same, and the other way round. */
  lemma RenderSeparatesMessages(e: PostSchedulerError, f: PostSchedulerError)
    requires e.argumentName == f.argumentName && e.value == f.value
    ensures Render(e) == Render(f) <==> e.message == f.message
  {
    if Render(e) == Render(f) {
      assert |e.message| == |f.message|;
      assert e.message == Render(e)[|Render(e)| - |e.message|..];
    }
  }
}
