/**
 * What the handlers hand to Telegram: messages with an optional inline
 * keyboard. A keyboard is a list of rows of buttons; a button either carries
 * callback data that comes back to the bot or opens a URL.
 */
module Markup {
  import opened Wrappers

  datatype Button =
    | CallbackButton(text: string, callbackData: string)
    | UrlButton(text: string, url: string)

  type Keyboard = seq<seq<Button>>

  datatype Message = Message(text: string, keyboard: Option<Keyboard>)

  /** The callback data of a row made of one callback button. */
  predicate IsCallbackRow(row: seq<Button>, data: string) {
    |row| == 1 && row[0].CallbackButton? && row[0].callbackData == data
  }
}
