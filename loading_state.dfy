/**
 * `useLoadingState`: two state cells, a loading flag and an optional error
 * message, each overwritten by its own setter.
 */
module Loading {
  import opened Wrappers

  class LoadingState {
    var isLoading: bool
    var error: Option<string>

    /** Not loading, no error. */
    constructor ()
      ensures !isLoading && error.None?
    {
      isLoading := false;
      error := None;
    }

    /** Raises the flag; the error is kept. */
    method StartLoading()
      modifies this
      ensures isLoading && error == old(error)
    {
      isLoading := true;
    }

    /**
     * Lowers the flag whatever it was, so calling it again changes nothing;
     * the error is kept.
     */
    method StopLoading()
      modifies this
      ensures !isLoading && error == old(error)
    {
      isLoading := false;
    }

    /** Stores the message as given, `None` included; the flag is kept. */
    method SetError(message: Option<string>)
      modifies this
      ensures error == message && isLoading == old(isLoading)
    {
      error := message;
    }
  }
}
