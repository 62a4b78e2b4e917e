/** The internal messages the hot wallet carries: whom a message is for, what it pays and what the recipient reads. */
module Messages {
  import opened Types
  import opened Ledger

  /** JettonTransferTonAmount in nanotons: attached to every message that is not a TON withdrawal. */
  const TRANSFER_FEE := 100_000_000

  /** Transfer is the body with op code 0x0f8a7ea5 and a body to forward, Comment the one with op code 0, Binary the one
      with 0xb3ddcf7d; Wrapped has no bits, only a reference to the message a proxy resends. */
  datatype Body =
    | Empty
    | Comment(text: Text)
    | Binary(data: string)
    | Transfer(queryId: nat, amount: int, destination: Option<Address>, forward: Body)
    | Wrapped(inner: Message)
    | Other

  /** dst is None for an address that is not a standard one of this workchain. */
  datatype Message = Message(dst: Option<Address>, bounce: bool, ton: int, body: Body)

  const NO_TEXT := PlainText("")

  /** The comment the scanner reads from a forwarded body: none from any other body. */
  function CommentOf(body: Body): Text { if body.Comment? then body.text else NO_TEXT }

  /** A binary comment goes before a text. */
  function CommentBody(comment: Text, binary: string): Body {
    if binary != "" then Binary(binary) else if comment != NO_TEXT then Comment(comment) else Empty
  }

  function BuildTonWithdrawalMessage(t: ExternalTask): Message {
    Message(Some(t.dest), t.bounceable, t.amount, CommentBody(t.comment, t.binaryComment))
  }

  function BuildJettonWithdrawalMessage(t: ExternalTask, jettonWallet: Address): Message {
    Message(Some(jettonWallet), true, TRANSFER_FEE,
            Transfer(t.queryId, t.amount, Some(t.dest), CommentBody(t.comment, t.binaryComment)))
  }

  /** What a proxy resends, with all its coins. */
  function Resent(dst: Address, body: Body): Body { Wrapped(Message(Some(dst), true, 0, body)) }

  function BuildJettonProxyWithdrawalMessage(
    proxy: Address, jettonWallet: Address, tonWallet: Address, queryId: nat, amount: int, memo: Uuid): Message
  {
    Message(Some(proxy), true, TRANSFER_FEE,
            Resent(jettonWallet, Transfer(queryId, amount, Some(tonWallet), Comment(UuidText(memo)))))
  }

  function BuildProxyServiceTonMessage(proxy: Address, tonWallet: Address, memo: Uuid): Message {
    Message(Some(proxy), true, TRANSFER_FEE, Resent(tonWallet, Comment(UuidText(memo))))
  }

  function BuildTonFillMessage(to: Address, memo: Uuid): Message {
    Message(Some(to), false, TRANSFER_FEE, Comment(UuidText(memo)))
  }

  /** The key under which the incoming side files a message: the recipient of a jetton transfer, or the destination. */
  function KeyIn(m: Message): Option<Address> {
    if m.body.Transfer? then m.body.destination else m.dst
  }

  /** The key the outgoing side files the same message under; None stands for the scanner's error. */
  function KeyOut(book: Book, m: Message): Option<Address> {
    if m.dst.None? then None
    else if WalletTypeOf(book, m.dst.value) == Some(JettonHot) then
      (if m.body.Transfer? then m.body.destination else None)
    else m.dst
  }

  function KeysIn(ms: seq<Message>): seq<Option<Address>> {
    seq(|ms|, i requires 0 <= i < |ms| => KeyIn(ms[i]))
  }

  predicate Distinct<T(==)>(xs: seq<T>) { forall i, j :: 0 <= i < j < |xs| ==> xs[i] != xs[j] }

  function TonSum(ms: seq<Message>): int {
    if ms == [] then 0 else TonSum(ms[..|ms| - 1]) + ms[|ms| - 1].ton
  }

  lemma TonSumAppend(ms: seq<Message>, m: Message)
    ensures TonSum(ms + [m]) == TonSum(ms) + m.ton
  {
    assert (ms + [m])[..|ms|] == ms;
  }

  function JettonSum(ts: seq<ExternalTask>, currency: string): int {
    if ts == [] then 0
    else JettonSum(ts[..|ts| - 1], currency) + if ts[|ts| - 1].currency == currency then ts[|ts| - 1].amount else 0
  }

  lemma JettonSumAppend(ts: seq<ExternalTask>, t: ExternalTask, currency: string)
    ensures JettonSum(ts + [t], currency) == JettonSum(ts, currency) + if t.currency == currency then t.amount else 0
  {
    assert (ts + [t])[..|ts|] == ts;
  }
}
