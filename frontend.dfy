/**
 * The chat panel of the portfolio builder (the `ChatPortfolio` React
 * component). Its state is three pieces of component state, the text being
 * typed, the conversation so far and the attached file, and each handler is
 * one atomic transition of that state.
 */
module Frontend {
  import opened Wrappers
  import opened Strings

  /** A browser `File` object; the component only ever reads its name. */
  datatype UploadedFile = UploadedFile(name: string)

  /** One entry of the conversation as the component stores and renders it. */
  datatype Message = Message(sender: string, text: string, file: Option<string>)

  /** `file ? file.name : null`: a `File` object is always truthy. */
  function AttachedName(file: Option<UploadedFile>): Option<string> {
    match file
    case Some(f) => Some(f.name)
    case None => None
  }

  /**
   * The send guard: a submission goes through unless the trimmed text is
   * empty and no file is attached. In the terms a user sees, a send is
   * refused exactly when no file is attached and the text holds nothing but
   * white space (possibly nothing at all).
   */
  predicate CanSend(chatInput: string, file: Option<UploadedFile>)
    ensures CanSend(chatInput, file) <==> file.Some? || !AllIn(chatInput, IsJsWhitespace)
  {
    !(JsTrim(chatInput) == [] && file == None)
  }

  /** An attached file alone is enough to send: the stored text may then be empty or blank. */
  lemma FileAloneCanSend(chatInput: string, f: UploadedFile)
    ensures CanSend(chatInput, Some(f))
  {
  }

  class ChatPortfolio {
    var chatInput: string
    var chatHistory: seq<Message>
    var file: Option<UploadedFile>

    /** `useState('')`, `useState([])`, `useState(null)`. */
    constructor ()
      ensures chatInput == [] && chatHistory == [] && file == None
    {
      chatInput := [];
      chatHistory := [];
      file := None;
    }

    /** The text area's change handler replaces the typed text. */
    method HandleInputChange(value: string)
      modifies this
      ensures chatInput == value
      ensures chatHistory == old(chatHistory) && file == old(file)
    {
      chatInput := value;
    }

    /**
     * The file input's change handler keeps the first selected file. An
     * empty selection (the remove-file path, or a cancelled picker) reads
     * `files[0]` as `undefined`, which the guard treats as no file.
     */
    method HandleFileChange(files: seq<UploadedFile>)
      modifies this
      ensures file == if files == [] then None else Some(files[0])
      ensures chatInput == old(chatInput) && chatHistory == old(chatHistory)
      ensures files == [] ==> (CanSend(chatInput, file) <==> !AllIn(chatInput, IsJsWhitespace))
    {
      if files == [] {
        file := None;
      } else {
        file := Some(files[0]);
      }
    }

    /**
     * The send handler. A refused send changes nothing. An accepted one
     * appends exactly one user message, holding the raw untrimmed text and
     * the attached file's name, after the unchanged earlier history, then
     * clears the text and the attachment. Either way the state afterwards
     * cannot be sent, so a second immediate send is a no-op.
     */
    method HandleSend()
      modifies this
      ensures !CanSend(old(chatInput), old(file)) ==>
        chatInput == old(chatInput) && chatHistory == old(chatHistory) && file == old(file)
      ensures CanSend(old(chatInput), old(file)) ==>
        chatHistory == old(chatHistory) + [Message("user", old(chatInput), AttachedName(old(file)))]
        && chatInput == [] && file == None
      ensures !CanSend(chatInput, file)
    {
      if JsTrim(chatInput) == [] && file == None {
        return;
      }
      var newMessage := Message("user", chatInput, AttachedName(file));
      chatHistory := chatHistory + [newMessage];
      chatInput := [];
      file := None;
    }

    /**
     * The `disabled` prop that `ChatInterface` gives the send button, read
     * over this component's state: no file and only white space typed,
     * which is exactly when `HandleSend` would refuse.
     */
    predicate SendDisabled()
      reads this
      ensures SendDisabled() <==> file == None && AllIn(chatInput, IsJsWhitespace)
      ensures SendDisabled() <==> !CanSend(chatInput, file)
    {
      JsTrim(chatInput) == [] && file == None
    }
  }
}
