/** Values shared by every component of the payment processor model. */
module Types {

  datatype Option<+T> = None | Some(value: T)

  /** A 32-byte account address of workchain 0, read as a big-endian number. */
  type Address = nat

  /** A message uuid (a prefix of the hash of the message body) or a withdrawal memo. */
  type Uuid = nat

  type QueryId = nat
  type Hash = nat

  /** Text carried by a comment.  Memos are printed as text injectively; any other text is not a uuid. */
  datatype Text = UuidText(uuid: Uuid) | PlainText(text: string)

  function ParseUuid(t: Text): Option<Uuid> {
    if t.UuidText? then Some(t.uuid) else None
  }

  const TON_SYMBOL := "TON"

  datatype WalletType = TonHot | JettonHot | TonDeposit | JettonDeposit | JettonOwner

  datatype AddressInfo = AddressInfo(wtype: WalletType, owner: Option<Address>, userId: string)

  /** The in-memory address book of the service. */
  type Book = map<Address, AddressInfo>

  function WalletTypeOf(book: Book, a: Address): Option<WalletType> {
    if a in book then Some(book[a].wtype) else None
  }
}
