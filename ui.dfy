/** What a handler shows the user. */
module Ui {

  /** `Alert.alert(title, message)`; the one-argument `Alert.alert(title)` and the browser-style
      `alert(text)` have an empty message. */
  datatype Alert = Alert(title: string, message: string)
}
