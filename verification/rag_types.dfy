/** Values exchanged with the collaborators both chat surfaces call: the
    vector store's search results and the language model's generation. */
module RagTypes {

  /** A retrieved chunk (a LangChain `Document`): its text and its metadata
      dictionary, whose values are taken as already rendered to text. */
  datatype Record = Record(pageContent: string, metadata: map<string, string>)

  /** What a `generate_content` call ends with: the response text, or the
      text of the exception it raised. */
  datatype Generation = Generated(text: string) | Raised(error: string)

  datatype Option<+T> = None | Some(value: T)

  datatype Result<+T, +E> = Success(value: T) | Failure(error: E)
}
