/**
 * What the bot sends back. Every `SendTextMessageAsync` and
 * `SendDocumentAsync` of the source becomes one `Prompt` appended to an
 * outbox; the Telegram transport itself is not modelled.
 */
module Prompts {
  /** The reply markup attached to a text message. */
  datatype Markup =
    | NoMarkup
    | RemoveKeyboard                      // `new ReplyKeyboardRemove()`
    | Keyboard(rows: seq<seq<string>>)    // a resized `ReplyKeyboardMarkup`, one button label per cell

  datatype Prompt =
    | Say(text: string, markup: Markup)
    | SendDocument(fileName: string, content: string)

  /** The labels a prompt offers as buttons, row by row. */
  function Offered(p: Prompt): seq<string>
  {
    if p.Say? && p.markup.Keyboard? then Flatten(p.markup.rows) else []
  }

  function Flatten(rows: seq<seq<string>>): seq<string>
  {
    if |rows| == 0 then [] else rows[0] + Flatten(rows[1..])
  }

  // Texts of the plain messages the handlers send.
  const Welcome := "Добро пожаловать в бота для работы с данными, содержащими культурные объекты!"
  const NoData := "Данных нет!"
  const NoValues := "Выборка невозможна, значений нет!"
  const NoSuchValue := "Такого значения не существует!"
  const SendFileFirst := "Отправьте файл."
  const SendJsonFile := "Отправьте JSON файл."
  const SendCsvFile := "Отправьте CSV файл."
  const FinalCsvFile := "Итоговый csv файл."
  const FinalJsonFile := "Итоговый json файл."
  const WrongFormat := "Введите файл с корректным форматом!"
  const WrongData := "Введите файл с корректными данными!"
  const PickOffered := "Выберите пункт из предложенных вариантов!"
}
