/** Effects of the page handlers that the model records as values. */
module Ui {

  /** A toast notification, or none. */
  datatype Toast = NoToast | SuccessToast(text: string) | ErrorToast(text: string) | InfoToast(text: string)
}
