/**
 * The post composer (src/components/post/CreatePost.tsx): the two checks a
 * submission passes in order, the trimmed text that is sent, the state after
 * success or failure, and the condition that disables the button.
 */
module CreatePost {
  import opened Types
  import opened JsText
  import opened AuthForms

  /** The longest content accepted, counted in characters before trimming. */
  const MaxLength := 280

  const EmptyMessage := "Post content cannot be empty"
  const TooLongMessage := "Post content cannot exceed 280 characters"
  const CreateFailedMessage := "Failed to create post. Please try again."

  /** The checks of `handleSubmit`: blank content is refused first, then
      content longer than 280 characters; otherwise the trimmed text is
      what is sent. */
  function ValidateContent(content: string): (r: Result<string, string>)
    ensures r.Err? <==> IsBlank(content) || |content| > MaxLength
    ensures IsBlank(content) ==> r == Err(EmptyMessage)
    ensures !IsBlank(content) && |content| > MaxLength ==> r == Err(TooLongMessage)
    ensures r.Ok? ==> r.value == Trim(content)
  {
    if IsBlank(content) then Err(EmptyMessage)
    else if |content| > MaxLength then Err(TooLongMessage)
    else Ok(Trim(content))
  }

  /** What is sent is never empty, never longer than the limit, and has no
      white space at either end. */
  lemma SentContentShape(content: string)
    requires ValidateContent(content).Ok?
    ensures var t := ValidateContent(content).value;
      t != "" && |t| <= MaxLength && !IsWhitespace(t[0]) && !IsWhitespace(t[|t| - 1])
  {
    var t := Trim(content);
    var s := TrimStart(content);
    assert s != [];
    assert t == s[..|t|];
  }

  /** The length check counts the untrimmed text: 281 characters of which the
      last is a space are refused, though the text sent would fit. */
  lemma LengthCountsPadding(content: string)
    requires |content| == MaxLength + 1 && content[0] == 'a' && content[MaxLength] == ' '
    ensures ValidateContent(content) == Err(TooLongMessage)
    ensures |Trim(content)| <= MaxLength
  {
    BlankIffAllWhitespace(content);
    TrimStartNoop(content);
  }

  /** `disabled={!content.trim() || content.length > 280 || isLoading}`. */
  predicate SubmitDisabled(content: string, isLoading: bool) {
    IsBlank(content) || |content| > MaxLength || isLoading
  }

  /** The button is enabled exactly when no request is loading and the
      content would pass the checks of `handleSubmit`. */
  lemma EnabledIffAccepted(content: string, isLoading: bool)
    ensures !SubmitDisabled(content, isLoading) <==> !isLoading && ValidateContent(content).Ok?
  {
  }

  /** `if (!user) return null`: nothing is shown to a visitor. */
  predicate Shown(user: Option<User>) {
    user.Some?
  }

  /** The submit button as rendered: `None` when the composer renders
      nothing, otherwise whether the button is enabled. A visitor gets no
      button; a signed-in user gets an enabled one exactly when nothing is
      loading and the content would be accepted. */
  function ButtonState(user: Option<User>, content: string, isLoading: bool): (r: Option<bool>)
    ensures r.None? <==> user.None?
    ensures r.Some? ==> (r.value <==> !isLoading && ValidateContent(content).Ok?)
  {
    if !Shown(user) then None
    else
      EnabledIffAccepted(content, isLoading);
      Some(!SubmitDisabled(content, isLoading))
  }

  /** The composer's state. */
  class Composer {
    var content: string
    var error: string

    constructor ()
      ensures content == "" && error == ""
    {
      content, error := "", "";
    }

    /** `handleSubmit`. A refused text keeps the content and shows the
        check's message; otherwise the trimmed text is sent, and success
        clears content and error while failure keeps the content and shows
        the server's message or the fallback. */
    method HandleSubmit(outcome: Option<ApiError>) returns (request: Option<CreatePostRequest>)
      modifies this
      ensures ValidateContent(old(content)).Err? ==>
        request.None? && content == old(content) && error == ValidateContent(old(content)).error
      ensures ValidateContent(old(content)).Ok? ==>
        request == Some(CreatePostRequest(Trim(old(content))))
      ensures request.Some? && outcome.None? ==> content == "" && error == ""
      ensures request.Some? && outcome.Some? ==>
        content == old(content) && error == DataMessageOr(outcome.value, CreateFailedMessage)
    {
      if IsBlank(content) {
        error := EmptyMessage;
        return None;
      }
      if |content| > MaxLength {
        error := TooLongMessage;
        return None;
      }
      request := Some(CreatePostRequest(Trim(content)));
      if outcome.None? {
        content := "";
        error := "";
      } else {
        error := DataMessageOr(outcome.value, CreateFailedMessage);
      }
    }

    /** `handleInputChange`: the new text replaces the old and any message
        is cleared. */
    method HandleInputChange(value: string)
      modifies this
      ensures content == value && error == ""
    {
      content := value;
      if error != "" {
        error := "";
      }
    }
  }
}
