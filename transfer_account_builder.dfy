/**
 * A model of the transaction builder specialised for `Transfer<Account>`:
 * a builder with three required fields (the sender's public key, the
 * receiver's public key and the account being transferred), each guarded
 * by a presence flag. A setter fails on a second call for its field;
 * `Build` fails, listing every unset field, until all three are set, and
 * then yields a transaction holding exactly the stored values.
 *
 * C++ exceptions become error values: setters return an `Outcome`,
 * `Build` returns a `Result`.
 */
module TransferAccountBuilder {

  newtype byte = x: int | 0 <= x < 256

  /** The protobuf account message, treated as an opaque value: its wire encoding. */
  datatype Account = Account(serialized: seq<byte>)

  /** A default-constructed account message (it encodes to no bytes). */
  const DefaultAccount := Account([])

  /** The part of the protobuf transaction message that `Build` fills in. */
  datatype Transaction = Transaction(
    senderPubKey: string,
    receivePubKey: string,
    txType: string,
    account: Account)

  /** A default-constructed transaction message: every field at its default. */
  const EmptyTransaction := Transaction("", "", "", DefaultAccount)

  /** The tag `Build` writes into the transaction's type field. */
  const TransferType := "Transfer"

  /** The builder kind named in the unset-arguments error. */
  const BuilderKind := "Transfer<Account>"

  /** The three required fields, in the order in which they are reported. */
  datatype Field = Sender | ReceiverPublicKey | AccountField

  /** The name by which a field is reported, in both kinds of error. */
  function FieldName(f: Field): (name: string)
    ensures name != [] && NoSpace(name)
  {
    match f
    case Sender => "sender"
    case ReceiverPublicKey => "receiverPublicKey"
    case AccountField => "Account"
  }

  /** Position of a field in the fixed reporting order. */
  function Rank(f: Field): nat
  {
    match f
    case Sender => 0
    case ReceiverPublicKey => 1
    case AccountField => 2
  }

  datatype BuildError =
    | DuplicateField(name: string)
    | UnsetFields(kind: string, missing: string)

  /** What a fluent setter reports: success (the C++ `return *this`) or its exception. */
  datatype Outcome = Pass | Fail(error: BuildError)

  datatype Result<T> = Success(value: T) | Failure(error: BuildError)

  /** Whether field `f` is set, given the three presence flags. */
  function FlagOf(f: Field, sender: bool, receiver: bool, account: bool): bool
  {
    match f
    case Sender => sender
    case ReceiverPublicKey => receiver
    case AccountField => account
  }

  /** Fields listed strictly in reporting order (so each at most once). */
  predicate InReportingOrder(fs: seq<Field>)
  {
    forall i, j :: 0 <= i < j < |fs| ==> Rank(fs[i]) < Rank(fs[j])
  }

  /**
   * The unset fields, given the three presence flags: exactly the fields
   * whose flag is false, once each, in the fixed reporting order.
   */
  function MissingFields(sender: bool, receiver: bool, account: bool): (fs: seq<Field>)
    ensures forall f :: f in fs <==> !FlagOf(f, sender, receiver, account)
    ensures InReportingOrder(fs)
    ensures fs == [] <==> sender && receiver && account
  {
    var fs := (if sender then [] else [Sender])
      + (if receiver then [] else [ReceiverPublicKey])
      + (if account then [] else [AccountField]);
    assert forall f :: f in fs <==> !FlagOf(f, sender, receiver, account) by {
      forall f ensures f in fs <==> !FlagOf(f, sender, receiver, account) {
        if f.Sender? {
        } else if f.ReceiverPublicKey? {
        } else {
        }
      }
    }
    fs
  }

  /** The names of a list of fields, in the same order. */
  function Names(fs: seq<Field>): (ns: seq<string>)
    ensures |ns| == |fs|
    ensures forall i :: 0 <= i < |fs| ==> ns[i] == FieldName(fs[i])
  {
    if fs == [] then [] else [FieldName(fs[0])] + Names(fs[1..])
  }

  /** The missing-members text: each field's name preceded by one space. */
  function Render(fs: seq<Field>): (s: string)
    ensures s == [] <==> fs == []
    ensures s != [] ==> s[0] == ' '
  {
    if fs == [] then "" else " " + FieldName(fs[0]) + Render(fs[1..])
  }

  lemma {:induction false} RenderAppend(fs: seq<Field>, f: Field)
    ensures Render(fs + [f]) == Render(fs) + " " + FieldName(f)
  {
    if fs == [] {
      assert fs + [f] == [f];
    } else {
      assert (fs + [f])[1..] == fs[1..] + [f];
      RenderAppend(fs[1..], f);
    }
  }

  /** With nothing set, the text names all three fields in reporting order. */
  lemma RenderAll()
    ensures Render([Sender, ReceiverPublicKey, AccountField]) == " sender" + " receiverPublicKey" + " Account"
  {
    assert " " + "sender" == " sender";
    assert " " + "receiverPublicKey" == " receiverPublicKey";
    assert " " + "Account" == " Account";
    RenderAppend([], Sender);
    assert [Sender] + [ReceiverPublicKey] == [Sender, ReceiverPublicKey];
    RenderAppend([Sender], ReceiverPublicKey);
    assert [Sender, ReceiverPublicKey] + [AccountField] == [Sender, ReceiverPublicKey, AccountField];
    RenderAppend([Sender, ReceiverPublicKey], AccountField);
  }

  /** With only the receiver unset, the text is that one name and reads back as it. */
  lemma RenderReceiverOnly()
    ensures Render([ReceiverPublicKey]) == " receiverPublicKey"
    ensures Words(" receiverPublicKey") == ["receiverPublicKey"]
  {
    assert " " + "receiverPublicKey" == " receiverPublicKey";
    assert Render([ReceiverPublicKey]) == " receiverPublicKey";
    WordsOfRender([ReceiverPublicKey]);
    assert Names([ReceiverPublicKey]) == ["receiverPublicKey"];
  }

  predicate NoSpace(s: string)
  {
    forall i :: 0 <= i < |s| ==> s[i] != ' '
  }

  /** The longest prefix of `s` that holds no space. */
  function TakeWord(s: string): (w: string)
    ensures |w| <= |s| && w == s[..|w|]
    ensures NoSpace(w)
    ensures |w| < |s| ==> s[|w|] == ' '
    ensures s != [] && s[0] != ' ' ==> w != []
  {
    if s == [] || s[0] == ' ' then [] else [s[0]] + TakeWord(s[1..])
  }

  /** Splits a text into its space-separated words, dropping empty ones. */
  function Words(s: string): seq<string>
    decreases |s|
  {
    if s == [] then []
    else if s[0] == ' ' then Words(s[1..])
    else
      var w := TakeWord(s);
      [w] + Words(s[|w|..])
  }

  lemma {:induction false} TakeWordPrefix(w: string, rest: string)
    requires NoSpace(w)
    requires rest == [] || rest[0] == ' '
    ensures TakeWord(w + rest) == w
  {
    if w == [] {
      assert w + rest == rest;
    } else {
      assert (w + rest)[1..] == w[1..] + rest;
      TakeWordPrefix(w[1..], rest);
    }
  }

  /**
   * The missing-members text reads back, word by word, as exactly the
   * names of the missing fields in order: nothing is lost or merged.
   */
  lemma {:induction false} WordsOfRender(fs: seq<Field>)
    ensures Words(Render(fs)) == Names(fs)
  {
    if fs != [] {
      var name, rest := FieldName(fs[0]), Render(fs[1..]);
      var s := " " + name + rest;
      assert s[1..] == name + rest;
      TakeWordPrefix(name, rest);
      assert (name + rest)[|name|..] == rest;
      WordsOfRender(fs[1..]);
    }
  }

  class TransactionBuilder {
    var senderPublicKey: string
    var receiverPublicKey: string
    var account: Account

    var isSetSenderPublicKey: bool
    var isSetReceiverPublicKey: bool
    var isSetAccount: bool

    /** A fresh builder: nothing set, every value at its default. */
    constructor ()
      ensures !isSetSenderPublicKey && !isSetReceiverPublicKey && !isSetAccount
      ensures senderPublicKey == "" && receiverPublicKey == "" && account == DefaultAccount
    {
      senderPublicKey, receiverPublicKey, account := "", "", DefaultAccount;
      isSetSenderPublicKey, isSetReceiverPublicKey, isSetAccount := false, false, false;
    }

    /** The fields whose flag is still down, in reporting order. */
    function Unset(): seq<Field>
      reads this
    {
      MissingFields(isSetSenderPublicKey, isSetReceiverPublicKey, isSetAccount)
    }

    predicate Complete()
      reads this
    {
      isSetSenderPublicKey && isSetReceiverPublicKey && isSetAccount
    }

    method SetSenderPublicKey(sender: string) returns (o: Outcome)
      modifies this
      ensures old(isSetSenderPublicKey) ==> o == Fail(DuplicateField(FieldName(Sender))) && unchanged(this)
      ensures !old(isSetSenderPublicKey) ==>
        o == Pass && isSetSenderPublicKey && senderPublicKey == sender
      ensures receiverPublicKey == old(receiverPublicKey) && account == old(account)
      ensures isSetReceiverPublicKey == old(isSetReceiverPublicKey) && isSetAccount == old(isSetAccount)
    {
      if isSetSenderPublicKey {
        return Fail(DuplicateField(FieldName(Sender)));
      }
      isSetSenderPublicKey := true;
      senderPublicKey := sender;
      o := Pass;
    }

    method SetReceiverPublicKey(receiver: string) returns (o: Outcome)
      modifies this
      ensures old(isSetReceiverPublicKey) ==> o == Fail(DuplicateField(FieldName(ReceiverPublicKey))) && unchanged(this)
      ensures !old(isSetReceiverPublicKey) ==>
        o == Pass && isSetReceiverPublicKey && receiverPublicKey == receiver
      ensures senderPublicKey == old(senderPublicKey) && account == old(account)
      ensures isSetSenderPublicKey == old(isSetSenderPublicKey) && isSetAccount == old(isSetAccount)
    {
      if isSetReceiverPublicKey {
        return Fail(DuplicateField(FieldName(ReceiverPublicKey)));
      }
      isSetReceiverPublicKey := true;
      receiverPublicKey := receiver;
      o := Pass;
    }

    method SetAccount(acc: Account) returns (o: Outcome)
      modifies this
      ensures old(isSetAccount) ==> o == Fail(DuplicateField(FieldName(AccountField))) && unchanged(this)
      ensures !old(isSetAccount) ==>
        o == Pass && isSetAccount && account == acc
      ensures senderPublicKey == old(senderPublicKey) && receiverPublicKey == old(receiverPublicKey)
      ensures isSetSenderPublicKey == old(isSetSenderPublicKey) && isSetReceiverPublicKey == old(isSetReceiverPublicKey)
    {
      if isSetAccount {
        return Fail(DuplicateField(FieldName(AccountField)));
      }
      isSetAccount := true;
      account := acc;
      o := Pass;
    }

    /**
     * The text naming every unset field, built by appending one
     * space-prefixed name per unset field; empty exactly when all are set.
     */
    method EnumerateUnsetMembers() returns (ret: string)
      ensures ret == Render(Unset())
      ensures ret == "" <==> Complete()
      ensures Words(ret) == Names(Unset())
    {
      ghost var listed: seq<Field> := [];
      ret := "";
      if !isSetSenderPublicKey {
        RenderAppend(listed, Sender);
        ret := ret + " " + FieldName(Sender);
        listed := listed + [Sender];
      }
      if !isSetReceiverPublicKey {
        RenderAppend(listed, ReceiverPublicKey);
        ret := ret + " " + FieldName(ReceiverPublicKey);
        listed := listed + [ReceiverPublicKey];
      }
      if !isSetAccount {
        RenderAppend(listed, AccountField);
        ret := ret + " " + FieldName(AccountField);
        listed := listed + [AccountField];
      }
      assert listed == Unset();
      WordsOfRender(listed);
    }

    /**
     * Fails, naming every unset field, unless all three are set; otherwise
     * yields a transaction holding exactly the stored values and the
     * transfer type tag. Reads the builder without changing it.
     */
    method Build() returns (r: Result<Transaction>)
      ensures r.Failure? <==> !Complete()
      ensures r.Failure? ==> r.error == UnsetFields(BuilderKind, Render(Unset()))
      ensures r.Success? ==>
        r.value == Transaction(senderPublicKey, receiverPublicKey, TransferType, account)
    {
      var unsetMembers := EnumerateUnsetMembers();
      if unsetMembers != "" {
        return Failure(UnsetFields(BuilderKind, unsetMembers));
      }
      var ret := EmptyTransaction;
      ret := ret.(senderPubKey := senderPublicKey);
      ret := ret.(receivePubKey := receiverPublicKey);
      ret := ret.(txType := TransferType);
      ret := ret.(account := account);
      r := Success(ret);
    }
  }

  /** Setting all three fields once, in any values, then building yields exactly those values. */
  method BuildAfterAllSettersRoundTrip(sender: string, receiver: string, acc: Account)
    returns (r: Result<Transaction>)
    ensures r == Success(Transaction(sender, receiver, TransferType, acc))
  {
    var b := new TransactionBuilder();
    var o1 := b.SetSenderPublicKey(sender);
    var o2 := b.SetReceiverPublicKey(receiver);
    var o3 := b.SetAccount(acc);
    assert o1 == Pass && o2 == Pass && o3 == Pass;
    r := b.Build();
  }

  /** Setting only the sender and the account leaves exactly the receiver missing. */
  method BuildWithoutReceiverFails(sender: string, acc: Account)
    returns (r: Result<Transaction>, missing: seq<string>)
    ensures r == Failure(UnsetFields(BuilderKind, " receiverPublicKey"))
    ensures missing == ["receiverPublicKey"]
  {
    var b := new TransactionBuilder();
    var _ := b.SetSenderPublicKey(sender);
    var _ := b.SetAccount(acc);
    r := b.Build();
    assert b.Unset() == [ReceiverPublicKey];
    RenderReceiverOnly();
    missing := Words(r.error.missing);
  }

  /** A fresh builder reports all three fields missing, in reporting order. */
  method BuildFreshFails() returns (r: Result<Transaction>)
    ensures r == Failure(UnsetFields(BuilderKind, " sender" + " receiverPublicKey" + " Account"))
  {
    var b := new TransactionBuilder();
    r := b.Build();
    assert b.Unset() == [Sender, ReceiverPublicKey, AccountField];
    RenderAll();
  }

  /**
   * A second call of any setter fails, whether its argument equals the
   * first one or not, and the builder then still builds from the first values.
   */
  method SecondSetFails(
    sender: string, receiver: string, acc: Account,
    sender2: string, receiver2: string, acc2: Account)
    returns (o1: Outcome, o2: Outcome, o3: Outcome, r: Result<Transaction>)
    ensures o1 == Fail(DuplicateField("sender"))
    ensures o2 == Fail(DuplicateField("receiverPublicKey"))
    ensures o3 == Fail(DuplicateField("Account"))
    ensures r == Success(Transaction(sender, receiver, TransferType, acc))
  {
    var b := new TransactionBuilder();
    var _ := b.SetSenderPublicKey(sender);
    var _ := b.SetReceiverPublicKey(receiver);
    var _ := b.SetAccount(acc);
    o1 := b.SetSenderPublicKey(sender2);
    o2 := b.SetReceiverPublicKey(receiver2);
    o3 := b.SetAccount(acc2);
    r := b.Build();
  }
}
