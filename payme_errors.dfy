/** The merchant API's error objects and their fixed trilingual message table. */
module PaymeErrors {
  import opened Common

  /** A message in Russian, Uzbek and English. */
  datatype Message = Message(ru: string, uz: string, en: string)

  /** The JSON-RPC `error` member: a code, a message and an optional `data` field name (`null` when absent). */
  datatype PaymeError = PaymeError(code: int, message: Message, data: Option<string>)

  const InsufficientPrivileges: int := -32504
  const InvalidRpcObject: int := -32600
  const MethodNotFound: int := -32601
  const SystemError: int := -32400
  const OrderNotFound: int := -31050
  const InvalidAmount: int := -31051
  const OrderExpired: int := -31052
  const OrderAlreadyPaid: int := -31053
  const CannotCancel: int := -31060
  const TransactionNotFound: int := -31099

  /** The fixed message table, keyed by code. */
  function TableMessage(code: int): (m: Option<Message>)
    ensures m.Some? <==> code in {InsufficientPrivileges, InvalidRpcObject, MethodNotFound, OrderNotFound,
                                  InvalidAmount, OrderExpired, OrderAlreadyPaid, CannotCancel, TransactionNotFound}
  {
    if code == InsufficientPrivileges then
      Some(Message("Недостаточно привилегий", "Huquqlar yetarli emas", "Insufficient privileges"))
    else if code == InvalidRpcObject then
      Some(Message("Неверный JSON-RPC объект", "Noto'g'ri JSON-RPC obyekt", "Invalid JSON-RPC object"))
    else if code == MethodNotFound then
      Some(Message("Метод не найден", "Metod topilmadi", "Method not found"))
    else if code == OrderNotFound then
      Some(Message("Заказ не найден", "Buyurtma topilmadi", "Order not found"))
    else if code == InvalidAmount then
      Some(Message("Неверная сумма", "Noto'g'ri summa", "Invalid amount"))
    else if code == OrderExpired then
      Some(Message("Заказ просрочен", "Buyurtma muddati o'tgan", "Order expired"))
    else if code == OrderAlreadyPaid then
      Some(Message("Заказ уже оплачен", "Buyurtma allaqachon to'langan", "Order already paid"))
    else if code == CannotCancel then
      Some(Message("Невозможно отменить транзакцию", "Tranzaksiyani bekor qilib bo'lmaydi", "Cannot cancel transaction"))
    else if code == TransactionNotFound then
      Some(Message("Транзакция не найдена", "Tranzaksiya topilmadi", "Transaction not found"))
    else None
  }

  /** An error object: the table's message for a known code, otherwise `text` in all three languages. */
  function CreatePaymeError(code: int, text: string, data: Option<string>): (e: PaymeError)
    ensures e.code == code && e.data == data
    ensures TableMessage(code).Some? ==> e.message == TableMessage(code).value
    ensures TableMessage(code).None? ==> e.message == Message(text, text, text)
  {
    var m := TableMessage(code);
    PaymeError(code, if m.Some? then m.value else Message(text, text, text), data)
  }

  /** The dispatcher's own error for a fault thrown by a handler; it carries no `data`. */
  function SystemFault(): (e: PaymeError)
    ensures e.code == SystemError && TableMessage(e.code).None?
  {
    PaymeError(SystemError, Message("Системная ошибка", "Tizim xatosi", "System error"), None)
  }
}
