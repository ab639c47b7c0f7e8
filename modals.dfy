/** The three modal-visibility stores (`hooks/useAuthModal.ts`,
    `hooks/useSubscribeModal.ts`, `hooks/useUploadModal.ts`): one boolean
    each, written outright by `onOpen` and `onClose`. Because the new value
    never depends on the old one, both operations are idempotent and the last
    call decides the state. */
module Modals {

  class AuthModal {
    var isOpen: bool

    constructor ()
      ensures !isOpen
    {
      isOpen := false;
    }

    method OnOpen()
      modifies this
      ensures isOpen
    {
      isOpen := true;
    }

    method OnClose()
      modifies this
      ensures !isOpen
    {
      isOpen := false;
    }
  }

  class SubscribeModal {
    var isOpen: bool

    constructor ()
      ensures !isOpen
    {
      isOpen := false;
    }

    method OnOpen()
      modifies this
      ensures isOpen
    {
      isOpen := true;
    }

    method OnClose()
      modifies this
      ensures !isOpen
    {
      isOpen := false;
    }
  }

  class UploadModal {
    var isOpen: bool

    constructor ()
      ensures !isOpen
    {
      isOpen := false;
    }

    method OnOpen()
      modifies this
      ensures isOpen
    {
      isOpen := true;
    }

    method OnClose()
      modifies this
      ensures !isOpen
    {
      isOpen := false;
    }
  }
}
