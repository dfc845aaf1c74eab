# Transfer<Account> transaction builder

This project models the transaction builder specialised for transferring an
account, `TransactionBuilder<Transfer<Account>>`. The builder has three
required fields:

- the sender's public key,
- the receiver's public key,
- the account being transferred.

Each field has a presence flag. A setter fails if its field is already set.
Otherwise it stores its argument and raises the flag. `build()` first works
out the text naming every unset field. The text holds each unset field's name
with a space in front of it, in the fixed order `sender`, `receiverPublicKey`,
`Account`. If that text is not empty, `build()` fails with an unset-arguments
error tagged `Transfer<Account>`. Otherwise it returns a transaction that holds
the three stored values and the type tag `Transfer`.

The Dafny model is the class `TransferAccountBuilder.TransactionBuilder`. It
has the source's six member fields, and its setters use `modifies this`.
C++ exceptions become values:

- a setter returns `Outcome` (`Pass`, or `Fail(DuplicateField(name))`);
- `Build` returns `Result` (`Success(transaction)`, or
  `Failure(UnsetFields("Transfer<Account>", missing))`).

The protobuf account message is an opaque value, `Account`, given by its wire
encoding. A default-constructed account encodes to no bytes. The transaction
is a plain datatype holding the four fields that `build()` fills in.

The missing-field text is kept in the form the source produces. The lemma
`WordsOfRender` proves that splitting it at spaces gives back exactly the
list of missing field names, in order.

Four client methods restate the builder's promises about one builder's whole
life, using only the contracts of the class's methods:

- set every field, then build;
- build without the receiver;
- build a fresh builder;
- set a field a second time.

`build()` only reads the builder. It does not consume it, and a second call
returns the same result. The model's `Build` has no `modifies` clause.

## Model

| member | source | states |
|---|---|---|
| TransferAccountBuilder.TransactionBuilder.constructor | core/transaction_builder/transfer/transfer_account_builder.hpp:90-96 | a fresh builder has all three flags down, both keys empty and a default account |
| TransferAccountBuilder.TransactionBuilder.SetSenderPublicKey | core/transaction_builder/transfer/transfer_account_builder.hpp:34-42 | if the sender is already set, it fails with a duplicate-`sender` error and leaves the builder unchanged; otherwise it stores the argument, raises the sender flag and leaves the other two fields and flags as they were |
| TransferAccountBuilder.TransactionBuilder.SetReceiverPublicKey | core/transaction_builder/transfer/transfer_account_builder.hpp:44-52 | if the receiver is already set, it fails with a duplicate-`receiverPublicKey` error and leaves the builder unchanged; otherwise it stores the argument, raises only the receiver flag and changes nothing else |
| TransferAccountBuilder.TransactionBuilder.SetAccount | core/transaction_builder/transfer/transfer_account_builder.hpp:54-62 | if the account is already set, it fails with a duplicate-`Account` error and leaves the builder unchanged; otherwise it stores the account, raises only the account flag and changes nothing else |
| TransferAccountBuilder.TransactionBuilder.EnumerateUnsetMembers | core/transaction_builder/transfer/transfer_account_builder.hpp:81-88 | the text built is the space-prefixed names of exactly the unset fields in reporting order; it is empty exactly when all three flags are up; split into words, it is the list of missing field names |
| TransferAccountBuilder.TransactionBuilder.Build | core/transaction_builder/transfer/transfer_account_builder.hpp:64-78 | it fails exactly when some field is unset, and then the error is tagged `Transfer<Account>` and carries the full missing-field text; on success the transaction holds the stored sender key, receiver key and account, with type `Transfer`; the builder is only read |
| TransferAccountBuilder.MissingFields | core/transaction_builder/transfer/transfer_account_builder.hpp:83-86 | a field is listed exactly when its flag is down; fields are listed strictly in the order sender, receiver, account, so each appears at most once; the list is empty exactly when all three flags are up |
| TransferAccountBuilder.FieldName | core/transaction_builder/transfer/transfer_account_builder.hpp:83-86 | every reported field name is non-empty and holds no space |
| TransferAccountBuilder.Render | core/transaction_builder/transfer/transfer_account_builder.hpp:82-87 | the missing-field text is empty exactly when no field is missing, and otherwise starts with a space |
| TransferAccountBuilder.RenderAppend | core/transaction_builder/transfer/transfer_account_builder.hpp:83-86 | appending one more space-prefixed name to the text is the same as rendering the list with that field added at its end, which is how the source's `ret +=` steps build it |
| TransferAccountBuilder.WordsOfRender | core/transaction_builder/transfer/transfer_account_builder.hpp:83-86 | split at spaces, the missing-field text gives back exactly the names of the missing fields, in order, with nothing merged or lost |
| TransferAccountBuilder.RenderAll | core/transaction_builder/transfer/transfer_account_builder.hpp:83-86 | with no field set, the text is ` sender receiverPublicKey Account` |
| TransferAccountBuilder.RenderReceiverOnly | core/transaction_builder/transfer/transfer_account_builder.hpp:84-85 | with only the receiver unset, the text is ` receiverPublicKey`, and its one word is `receiverPublicKey` |
| TransferAccountBuilder.BuildAfterAllSettersRoundTrip | core/transaction_builder/transfer/transfer_account_builder.hpp:34-78 | setting each field once to any values and then building succeeds with a transaction holding exactly those values and type `Transfer` |
| TransferAccountBuilder.BuildWithoutReceiverFails | core/transaction_builder/transfer/transfer_account_builder.hpp:64-69 | setting only the sender and the account makes the build fail with the `Transfer<Account>` error whose missing list is exactly `receiverPublicKey` |
| TransferAccountBuilder.BuildFreshFails | core/transaction_builder/transfer/transfer_account_builder.hpp:81-88 | building a fresh builder fails and lists all three fields in reporting order |
| TransferAccountBuilder.SecondSetFails | core/transaction_builder/transfer/transfer_account_builder.hpp:34-62 | calling any setter a second time fails with that field's duplicate error, whether or not its argument equals the first one, and a later build still returns the first values |

## Left out

- The exception message text that names a source file is not modelled. Errors carry only their kind, the field name and the builder kind.
- C++ copy and move constructors are not modelled. They carry no behaviour.
- The transaction message has more fields than the four `build()` sets. Those are left out; the model's `Transaction` holds only the fields written.
- The protobuf ownership transfer for the account (`CopyFrom`, `set_allocated_account`) is not modelled. The account is a value that gets copied.
- The header irohad/ametsuchi/impl/postgres_block_index.hpp is not part of this model. It only declares block-index operations, and their bodies are not available. What it keeps is a database handle and a logger.
- The header shared_model/builders/protobuf/empty_block.hpp is not part of this model. It only holds type aliases over a template whose definition is not available.
