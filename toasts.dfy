/**
 * The notices the sidebar shows (`toast.success` / `toast.error`), kept as a log
 * of what was shown, in order.
 */
module Toasts {

  datatype Level = SuccessToast | ErrorToast

  datatype Notice = Notice(level: Level, text: string)

  class Toaster {
    var log: seq<Notice>

    constructor ()
      ensures log == []
    {
      log := [];
    }

    /** `toast.success(text)` */
    method Success(text: string)
      modifies this
      ensures log == old(log) + [Notice(SuccessToast, text)]
    {
      log := log + [Notice(SuccessToast, text)];
    }

    /** `toast.error(text)` */
    method Error(text: string)
      modifies this
      ensures log == old(log) + [Notice(ErrorToast, text)]
    {
      log := log + [Notice(ErrorToast, text)];
    }
  }
}
