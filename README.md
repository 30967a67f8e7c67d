# Expense-Share in Dafny

Expense-Share is a web application where a group of people share expenses. Someone creates a
group and gets a six-character join code. Others join with that code. Members record
expenses and settlements ("Bob paid Alice 50") and send reminders. The group dashboard shows
who owes whom.

This project models the parts of the program that decide something, and proves what they
promise:

- **Balance engine** (`balances.dfy`, module `Balances`). The dashboard computes a
  member-to-balance object in three passes:
  - every member starts at 0;
  - every expense is split equally over the current members;
  - every settlement moves money between its two parties.

  Around it sit the visibility filter, the balance cards with their Remind / Mark Paid
  buttons, and the "You paid" summary. The object's keys keep insertion order, as a
  JavaScript object's do. Amounts are `real`, so conservation is exact.
- **Server store** (`store.dfy`, module `Store`). The MongoDB collections are one class
  `Db` with a `seq` field per collection. Two more fields record effects that leave the
  database: socket broadcasts (`events`) and mail handed to the transport (`mails`).
- **Route handlers**, one module per router file; each handler is a method that
  `modifies` the store:
  - `GroupRoutes`: create a group and join a group;
  - `ExpenseRoutes`: add, list and delete expenses;
  - `SettlementRoutes`: the settlement guard chain and the settlement listing;
  - `ReminderRoutes`: create, list and send reminders, plus the SMS stub.

  A guard chain with no side effects is a pure function returning `Reply`. `Reply` is
  either `Ok(status, value)` or `Err(Failure(status, error, details))`.
- **Request schemas** (`schemas.dfy`). The zod schemas become functions from the raw
  request fields to the list of issues zod reports. The `validate` middleware becomes
  `Validate`.
- **Client forms**:
  - `home_form.dfy`: the e-mail and phone validators, the phone sanitiser and the two
    submit handlers of the welcome page;
  - `expense_modal.dfy` and `reminder_modal.dfy`: the add-expense and add-reminder dialogs;
  - `avatar.dfy`: the avatar's initial, size class, and colour hash with its 32-bit wrap.

  Each form's state is a class whose fields the handlers update.

Some behaviour is delegated to code this model does not describe. It enters as
function-valued parameters:

- zod's e-mail and date-time checks, `ObjectId.isValid` and `Number(...)` (`Schemas.Checks`);
- the server's `parseFloat` and `new Date(...)` (`Records.Parsers`);
- the clients' `parseFloat` and `new Date(...)`.

Other inputs that the program gets from outside are plain parameters:

- new record ids;
- the current time;
- the strings `Math.random` would draw for a group code.

Ids are the canonical string form of an ObjectId. Timestamps are integers.

Where the system's documented behaviour and its code differ, the model follows the code:

- The add-reminder dialog accepts a due date equal to the present, because its comparison is
  a strict `<` (client/src/components/AddReminderModal.jsx:18). The server makes no due-date
  check at all. See `ReminderModal.DueNowAccepted` and `ReminderRoutes.NoDueDateCheck`.
- Deleting an expense has no ownership check on the server
  (server/routes/expenseRoutes.js:47-54). `ExpenseRoutes.DeleteExpense` takes no requester.
- An expense whose payer is not a current member breaks conservation: every member is debited
  and nobody is credited. See `Balances.NonMemberPayerLeaks`.

## Model

| member | source | states |
|---|---|---|
| Balances.Empty | client/src/pages/GroupDashboard.jsx:315 | `{}` is a well-formed object with no keys. |
| Balances.Put | client/src/pages/GroupDashboard.jsx:328-329 | `balances[k] = v` sets k to v and no other key. An existing key keeps its place; a new key is appended. The key set grows by k alone. |
| Balances.PutTotal | client/src/pages/GroupDashboard.jsx:328-329 | Writing v to k changes the sum of all values by v minus k's old value. |
| Balances.Init | client/src/pages/GroupDashboard.jsx:315-316 | Defines the first pass: each member id in order is written with 0. `InitShape` proves the keys are exactly the members, each once, all at 0. |
| Balances.SplitOf | client/src/pages/GroupDashboard.jsx:318 | `amount / members.length`: N splits multiply back to the amount. An empty member list gives 0, a value no member reads. |
| Balances.Share | client/src/pages/GroupDashboard.jsx:319-322 | Defines the inner member loop: the payer gets `amount - split` added, every other member `split` taken. `ShareAmount` and `ShareTotal` prove its effect per key and on the sum. |
| Balances.ApplyExpense | client/src/pages/GroupDashboard.jsx:317-323 | Defines one expense callback: `Share` with the split over the current member count. `OneExpense` states its effect. |
| Balances.AfterExpenses | client/src/pages/GroupDashboard.jsx:317-323 | Defines the expense pass as the callbacks in list order. `AfterExpensesAmount` and `AfterExpensesTotal` state what it yields. |
| Balances.Applies | client/src/pages/GroupDashboard.jsx:327 | Defines the guard `from && to && s.amount`: both parties present and the amount non-zero. `SelfSettlementNoOp` and `ApplyTransfer` use it. |
| Balances.AfterTransfers | client/src/pages/GroupDashboard.jsx:324-331 | Defines the settlement pass as the callbacks in list order. `AfterTransfersKeys`, `AfterTransfersTotal` and `AfterTransfersAmount` state what it yields. |
| Balances.Balances | client/src/pages/GroupDashboard.jsx:315-331 | Defines the whole object: the member pass, then the expense pass, then the settlement pass. `BalancesShape`, `Conservation` and `BalanceFormula` state its properties. |
| Balances.Entries | client/src/pages/GroupDashboard.jsx:332 | `Object.entries`: every entry carries its key's value, and every key of the object appears as an entry. |
| Balances.InitBalances | client/src/pages/GroupDashboard.jsx:315-316 | The member loop yields the object that lists every member id as a key. |
| Balances.InitShape | client/src/pages/GroupDashboard.jsx:315-316 | After the first pass the keys are exactly the member ids, each once, and all values are 0. |
| Balances.ShareExpense | client/src/pages/GroupDashboard.jsx:317-323 | The member loop for one expense computes the equal-split update and leaves the key list unchanged. |
| Balances.ApplyExpenses | client/src/pages/GroupDashboard.jsx:317-323 | The expense loop computes the expense pass and adds no key. |
| Balances.ApplyTransfer | client/src/pages/GroupDashboard.jsx:324-331 | Each key changes by the settlement's flow to it. A settlement failing `from && to && s.amount` changes nothing. |
| Balances.ApplySettlement | client/src/pages/GroupDashboard.jsx:325-330 | One settlement callback equals `ApplyTransfer` and keeps each key listed once. |
| Balances.ApplySettlements | client/src/pages/GroupDashboard.jsx:324-331 | The settlement loop computes the settlement pass. |
| Balances.ComputeBalances | client/src/pages/GroupDashboard.jsx:314-331 | The three loops compute `Balances(ids, expenses, settlements)`, a well-formed object. |
| Balances.AfterTransfersKeys | client/src/pages/GroupDashboard.jsx:324-331 | The settlement pass only appends keys. Each new key is a party of a settlement that passed the guard. |
| Balances.BalancesShape | client/src/pages/GroupDashboard.jsx:315-331 | The finished object lists every key once and has every member id as a key. |
| Balances.NoHistory | client/src/pages/GroupDashboard.jsx:315-316 | With no expenses and no settlements the keys are exactly the members and every balance is 0. |
| Balances.SharesAddUp | client/src/pages/GroupDashboard.jsx:318 | N shares of `amount / N` add back up to the amount. |
| Balances.ShareAmount | client/src/pages/GroupDashboard.jsx:319-321 | With distinct members, the payer gains amount − split, every other member loses split, and a non-member key is untouched. |
| Balances.OneExpense | client/src/pages/GroupDashboard.jsx:317-323 | One expense of A paid by P among N members: P changes by A − A/N, each other member by −A/N, a non-member by 0. |
| Balances.SoleMemberExpense | client/src/pages/GroupDashboard.jsx:317-323 | In a one-member group, the payer's balance does not change. |
| Balances.MemberExpenseConserves | client/src/pages/GroupDashboard.jsx:317-323 | An expense paid by a member leaves the sum of all balances unchanged. |
| Balances.NonMemberPayerLeaks | client/src/pages/GroupDashboard.jsx:319-321 | An expense paid by a non-member lowers the sum of all balances by its amount. |
| Balances.AfterExpensesTotal | client/src/pages/GroupDashboard.jsx:315-323 | With distinct members and every payer a member, the balances after the expense pass sum to 0. |
| Balances.AfterTransfersTotal | client/src/pages/GroupDashboard.jsx:324-331 | The settlement pass leaves the sum of all balances unchanged. |
| Balances.TransferTotal | client/src/pages/GroupDashboard.jsx:327-330 | A settlement keeps the sum of all balances. |
| Balances.Conservation | client/src/pages/GroupDashboard.jsx:315-331 | With distinct members and every payer a member, all balances sum to exactly 0. Keys of non-member settlement parties are included. |
| Balances.SettlementOffset | client/src/pages/GroupDashboard.jsx:324-331 | A settlement of X from F to T adds X to F, takes X from T, gives both a key, and leaves every other key. A settlement with a missing party or zero amount changes nothing. |
| Balances.SelfSettlementNoOp | client/src/pages/GroupDashboard.jsx:327-330 | A settlement with oneself passes the guard but changes no balance. |
| Balances.MySpend | client/src/pages/GroupDashboard.jsx:176-178 | "You paid" is never negative when amounts are non-negative. |
| Balances.Spent | client/src/pages/GroupDashboard.jsx:175 | Defines `totalSpent` as the sum of the expense amounts in list order. `SpendNonNegative` bounds the own share by it. |
| Balances.PaidBy | client/src/pages/GroupDashboard.jsx:176 | Defines `myExpenses` as the sum of the amounts of the expenses paid by `me`. `BalanceFromSpend` relates it to the balance. |
| Balances.SentBy | client/src/pages/GroupDashboard.jsx:177 | Defines `mySettlements` as the sum of the amounts of the settlements sent by `me`. `NetFlowSentReceived` relates it to the settlement flow. |
| Balances.SpendNonNegative | client/src/pages/GroupDashboard.jsx:175-177 | Own expenses lie between 0 and the total spent. Own settlements are non-negative. |
| Balances.BalanceFormula | client/src/pages/GroupDashboard.jsx:315-331 | A member's balance is what they paid, minus total spent / N, plus their net settlement flow. |
| Balances.BalanceFromSpend | client/src/pages/GroupDashboard.jsx:175-178 | With well-formed settlements, a member's balance is "You paid" minus what they received minus total spent / N. |
| Balances.SeedScenario | server/seed.js:34-76 | For the seed data, Alice is at 120, Bob at −20 and Charlie at −100, and the sum is 0. |
| Balances.Visible | client/src/pages/GroupDashboard.jsx:332 | The visible entries are exactly the object's entries with \|balance\| ≥ 0.01. |
| Balances.FindMember | client/src/pages/GroupDashboard.jsx:344 | `find` returns a member with that id, and None exactly when no member has it. |
| Balances.FindMemberUnique | client/src/pages/GroupDashboard.jsx:344 | With distinct ids, the member found is that member. |
| Balances.RowsOf | client/src/pages/GroupDashboard.jsx:343-345 | Each card is a member's own entry. Every entry that matches a member renders. |
| Balances.BalanceSection | client/src/pages/GroupDashboard.jsx:307-339 | The section is hidden iff there are no expenses or no members. It shows "All settled up!" iff no entry reaches 0.01. |
| Balances.ShownRows | client/src/pages/GroupDashboard.jsx:332-345 | Once there is an expense, a member's balance at least 0.01 away from 0 is exactly what puts the grid on screen with their card. Every card carries its member's balance. |
| Balances.CardActions | client/src/pages/GroupDashboard.jsx:380-392 | Remind appears on every other member's card. Mark Paid appears only on another member's positive card, with from = current user and amount = \|balance\|, as `handleMarkPaid` sends it. |
| Balances.InsertedFlow | client/src/pages/GroupDashboard.jsx:324-331 | Inserting one settlement anywhere in the list adds exactly its own flow. |
| Balances.MarkPaidSettles | client/src/pages/GroupDashboard.jsx:117-124 | Once the Mark Paid settlement is recorded, the payee's balance is exactly 0. The payer's balance grows by the amount. |
| Text.Trim | server/validators/schemas.js:11 | `trim()` drops exactly the white space at both ends: the result is the run after the leading spaces, only white space follows it, and it has no white space at either end. |
| Text.TrimEmptyIff | client/src/pages/Home.jsx:26-27 | A string trims to "" iff it is all white space. |
| Text.TrimNoEdgeSpace | server/routes/reminderRoutes.js:35 | Trimming a string without edge spaces changes nothing. |
| Text.Upper | server/routes/groupRoutes.js:55 | `toUpperCase()` maps every character and keeps the length. |
| Text.Lower | server/routes/groupRoutes.js:15 | `toLowerCase()` maps every character and keeps the length. |
| Text.UpperIdempotent | server/routes/groupRoutes.js:55 | Upper-casing an upper-cased string changes nothing. |
| Text.LowerIdempotent | server/routes/groupRoutes.js:15 | Lower-casing a lower-cased string changes nothing. |
| Text.LowerOfUpper | server/routes/groupRoutes.js:55 | Lower-casing after upper-casing is lower-casing alone. |
| Text.UpperOfLower | server/routes/groupRoutes.js:55 | Upper-casing after lower-casing is upper-casing alone. |
| Text.UpperDeterminedByLower | server/routes/groupRoutes.js:55 | An upper-case string whose lower-cased form matches that of s is exactly s upper-cased. |
| Sequences.FindIndex | server/routes/groupRoutes.js:15 | `findOne` / `find`: the index returned is of the first element that matches; None exactly when no element matches. |
| Sequences.Filter | server/routes/expenseRoutes.js:37 | `find` with a condition: keeps exactly the matching elements, each as often as it occurs, and never more elements than there were. |
| Sequences.SortBy | server/routes/expenseRoutes.js:39 | The sort returns the same elements (the same multiset), ordered by the key. |
| Records.FieldTruthy | server/routes/reminderRoutes.js:55 | Defines JavaScript truthiness of a request field: absent, null, false, 0 and "" are false, everything else true. `MessageOr` and `ExpenseDate` use it. |
| Records.TypeName | server/validators/schemas.js:11 | zod names a value's type "string" exactly for strings. |
| Records.StringOf | server/validators/schemas.js:11 | A field's text exists iff the field holds a string. |
| Records.ParseFloat | server/routes/settlementRoutes.js:18 | `parseFloat` keeps a number and parses a string; absent, null and boolean fields give NaN (arrays and objects: see Left out). |
| Records.IdField | server/routes/settlementRoutes.js:7-9 | `x && isValidId(x)` holds iff x is a string of 24 lower-case hex digits. |
| Records.UserIndexById | server/routes/reminderRoutes.js:65 | Finds the first user with that id, or None iff there is none. |
| Records.GroupIndexById | server/routes/reminderRoutes.js:51 | Finds the first group with that id, or None iff there is none. |
| Records.UserIndexByEmail | server/routes/groupRoutes.js:15 | Finds the first user with that address, or None iff there is none. |
| Records.GroupIndexByCode | server/routes/groupRoutes.js:57 | Finds the first group with that code, or None iff there is none. |
| Records.GroupById | server/routes/expenseRoutes.js:13 | Finds a stored group with that id, or None iff no group has it. |
| Records.ExpenseIndexById | server/routes/expenseRoutes.js:49 | Finds the expense with that id, or None iff there is none. |
| Store.ExpenseAppended | server/routes/expenseRoutes.js:18-25 | Appending an expense with a new id keeps expense ids unique. |
| Store.SettlementAppended | server/routes/settlementRoutes.js:27-32 | Appending a settlement with a new id keeps settlement ids unique. |
| Store.ReminderAppended | server/routes/reminderRoutes.js:30-36 | Appending a reminder with a new id keeps reminder ids unique. |
| Store.Db.InsertGroup | server/routes/groupRoutes.js:35-39 | `Group.create` appends the group when the groups stay valid, keeps the store valid, and changes no other collection. |
| Store.Db.InsertExpense | server/routes/expenseRoutes.js:18-25 | `Expense.create` appends the expense, keeps the store valid, and changes no other collection. |
| Store.Db.InsertSettlement | server/routes/settlementRoutes.js:27-32 | `Settlement.create` appends the settlement, keeps the store valid, and changes no other collection. |
| Store.Db.InsertReminder | server/routes/reminderRoutes.js:30-36 | `Reminder.create` appends the reminder, keeps the store valid, and changes no other collection. |
| Store.Db.Emit | server/routes/expenseRoutes.js:27 | A broadcast is recorded after all earlier ones, and the collections do not change. |
| Store.Db.constructor | server/models/Group.js:3-8 | An empty store satisfies every uniqueness invariant. |
| Schemas.StringType | server/validators/schemas.js:11 | `z.string()` accepts exactly strings. An absent field gets "Required"; another type gets "Expected string, received …". |
| Schemas.RequiredText | server/validators/schemas.js:11 | Accepted iff the field is a string of length ≥ 1, checked before trimming (also the group name, code and title). Otherwise exactly one issue. |
| Schemas.EmailField | server/validators/schemas.js:12 | Accepted iff the untrimmed string passes the e-mail check. Otherwise "Invalid email address". |
| Schemas.PhoneField | server/validators/schemas.js:13 | Accepted iff the phone is absent, "" or exactly ten digits. A bad string gets the ten-digits message; another type gets "Invalid input". |
| Schemas.ObjectIdField | server/validators/schemas.js:5-7 | Accepted iff the field is a string that `ObjectId.isValid` accepts. Otherwise "Invalid ID format". |
| Schemas.OptionalObjectId | server/validators/schemas.js:65 | Absent, or a valid id string. |
| Schemas.OptionalString | server/validators/schemas.js:63 | Absent, or a string. |
| Schemas.Coerce | server/validators/schemas.js:39 | `Number(v)` keeps a number, converts a string, and gives NaN for an absent field. |
| Schemas.AmountField | server/validators/schemas.js:39 | Accepted iff the coerced number is ≥ 0.01. NaN and smaller numbers get their distinct messages. |
| Schemas.DateField | server/validators/schemas.js:42 | Absent or a string is accepted. Anything else gets "Invalid input". |
| Schemas.DueDateField | server/validators/schemas.js:62 | Accepted iff the field is a string that is an offset date-time or starts with `dddd-dd-dd`. The union's error messages are modelled too. |
| Schemas.UserIssues | server/validators/schemas.js:10-14 | No issue iff the name, e-mail and phone checks all pass. |
| Schemas.CreateGroupIssues | server/validators/schemas.js:17-21 | No issue iff the user fields and the group name pass. |
| Schemas.JoinGroupIssues | server/validators/schemas.js:23-27 | No issue iff the user fields and the code pass. |
| Schemas.AddExpenseIssues | server/validators/schemas.js:36-44 | No issue iff title, amount, both ids and date pass. |
| Schemas.CreateReminderIssues | server/validators/schemas.js:59-67 | No issue iff group id, due date, message, user id and optional forUserId pass. |
| Schemas.SendReminderIssues | server/validators/schemas.js:75-81 | No issue iff group id, optional member id and optional message pass. |
| Schemas.ParamIssues | server/validators/schemas.js:29-33 | A route id parameter is accepted iff it is a valid ObjectId. Otherwise one "Invalid ID format" issue at its path. |
| Schemas.Validate | server/middleware/validate.js:3-22 | Any issue gives 400 "Validation failed" with every issue as a detail. No issue lets the handler run. |
| Schemas.BlankNameAccepted | server/validators/schemas.js:11 | A name of white space passes `min(1)` and trims to "". |
| Schemas.DueDatePrefixAccepted | server/validators/schemas.js:62 | Any text may follow a `dddd-dd-dd` prefix, because there is no end anchor. |
| Schemas.AmountBound | server/validators/schemas.js:39 | A number is accepted iff ≥ 0.01. Numbers in (0, 0.01) get "Amount must be positive". |
| GroupRoutes.CodeFree | server/routes/groupRoutes.js:32 | Defines `!await Group.findOne({ code })`: no stored group has the code. `DrawCode` and `FirstFree` use it. |
| GroupRoutes.Upserted | server/routes/groupRoutes.js:15-26 | An unknown address creates a user with the phone if supplied. A known address keeps id and name, and the phone is replaced only when one is supplied. |
| GroupRoutes.UpsertFinds | server/routes/groupRoutes.js:15-26 | After the upsert the address finds exactly the returned user. |
| GroupRoutes.UpsertIdempotent | server/routes/groupRoutes.js:60-71 | A second upsert with the same address creates no user and returns the same id and name. |
| GroupRoutes.UpsertedValid | server/routes/groupRoutes.js:15-26 | The upsert keeps user ids and addresses unique. |
| GroupRoutes.SuppliedPhone | server/routes/groupRoutes.js:21-23 | `phone && …`: a phone is supplied iff it is a non-empty string. |
| GroupRoutes.UpsertUser | server/routes/groupRoutes.js:15-26 | Updates the users as `Upserted` says and changes nothing else. |
| GroupRoutes.DrawCode | server/routes/groupRoutes.js:28-33 | The loop stops at the first draw whose upper-cased form no group has (`FirstFree`) and returns that code; every earlier draw was taken. |
| GroupRoutes.StoreNewGroup | server/routes/groupRoutes.js:15-39 | Upserts the user, draws the first free code and appends exactly one group with that code and the creator as its only member; the other collections stay as they were. |
| GroupRoutes.CreatedValid | server/routes/groupRoutes.js:35-39 | A group with a new id, a free code and one member keeps groups valid. |
| GroupRoutes.CreateGroup | server/routes/groupRoutes.js:10-49 | An invalid body gets 400 and nothing changes. Otherwise: users upserted by lower-cased e-mail; one group appended whose code is draw number `tries` upper-cased, the first draw no earlier group has (every earlier draw was taken), with members = [creator]; reply 201. |
| GroupRoutes.FirstFreeUnique | server/routes/groupRoutes.js:30-33 | Only one draw can be the first free one, so the draws determine the code. |
| GroupRoutes.Joined | server/routes/groupRoutes.js:73-76 | The user ends up a member. The list grows by one iff they were not a member, and the prefix order is kept. |
| GroupRoutes.JoinedDistinct | server/routes/groupRoutes.js:73-76 | Joining never introduces a duplicate member. |
| GroupRoutes.JoinedValid | server/routes/groupRoutes.js:73-76 | Replacing a group by its joined form keeps groups valid. |
| GroupRoutes.JoinIdempotent | server/routes/groupRoutes.js:73-78 | Joining twice equals joining once, and the second join does not broadcast. |
| GroupRoutes.AddMember | server/routes/groupRoutes.js:73-78 | Pushes the member if absent. Broadcasts 'member-joined' iff the list grew. |
| GroupRoutes.JoinGroup | server/routes/groupRoutes.js:52-88 | 400 on an invalid body. 404 "Group not found. Check the code." for an unknown upper-cased code, with nothing changed. Otherwise upsert, join, reply 200. |
| ExpenseRoutes.ExpenseDate | server/routes/expenseRoutes.js:23 | A truthy date is parsed. Otherwise the date is now. |
| ExpenseRoutes.AddExpenseReply | server/routes/expenseRoutes.js:13-28 | 404 iff the group is unknown. 403 iff the payer is not a member. Otherwise 201: parsed amount, date or now, participants []. 500 when a cast fails. |
| ExpenseRoutes.AddExpense | server/routes/expenseRoutes.js:9-32 | 400 on an invalid body. Otherwise the reply is `AddExpenseReply`. A created expense is appended and broadcast; any error leaves the store unchanged. |
| ExpenseRoutes.GroupExpenses | server/routes/expenseRoutes.js:37-39 | Exactly the group's expenses (the same multiset), date descending. |
| ExpenseRoutes.ListExpenses | server/routes/expenseRoutes.js:35-44 | 400 for an invalid group id. Otherwise 200 with `GroupExpenses`. |
| ExpenseRoutes.RemoveExact | server/routes/expenseRoutes.js:52 | Removing the found expense drops exactly the expenses with its id, keeps the others in order, and keeps ids unique. |
| ExpenseRoutes.DeleteExpense | server/routes/expenseRoutes.js:47-58 | 400 on an invalid id and 404 for an unknown id, both with nothing changed. Otherwise that expense is removed and 'expense-deleted' broadcast. There is no requester check. |
| SettlementRoutes.Verdict | server/routes/settlementRoutes.js:14-25 | Accepted iff the ids are canonical, the amount is > 0, the group exists, both are members, and from ≠ to. Errors are 400/403/404. |
| SettlementRoutes.MalformedIdsFirst | server/routes/settlementRoutes.js:15-17 | A malformed id gets 400 whatever the store holds, checked in the order group, payer, payee. |
| SettlementRoutes.AmountChecked | server/routes/settlementRoutes.js:18-19 | NaN or ≤ 0 gets 400 "Amount must be positive". |
| SettlementRoutes.UnknownGroup | server/routes/settlementRoutes.js:21-22 | A well-formed request for an unknown group gets 404. |
| SettlementRoutes.SelfSettlement | server/routes/settlementRoutes.js:23-25 | u→u gets 403 for a non-member and 400 "Cannot settle with yourself" for a member. |
| SettlementRoutes.RecordSettlement | server/routes/settlementRoutes.js:12-40 | On success exactly one settlement {group, from, to, parsed amount, now} is appended, and no other collection or broadcast changes. |
| SettlementRoutes.GroupSettlements | server/routes/settlementRoutes.js:46-49 | Exactly the group's settlements, date descending. |
| SettlementRoutes.ListSettlements | server/routes/settlementRoutes.js:43-54 | 400 "Invalid group id" iff the id is not canonical. Otherwise 200 with `GroupSettlements`. |
| ReminderRoutes.MessageOr | server/routes/reminderRoutes.js:35 | The message when it is truthy, else the fallback, trimmed. |
| ReminderRoutes.StoredMessage | server/routes/reminderRoutes.js:35 | With no message, the default is stored. A white-space message is stored as "". The result never has edge spaces. |
| ReminderRoutes.CreateReminderReply | server/routes/reminderRoutes.js:27-36 | 404 iff the group is unknown. Otherwise 201 with forUser absent iff forUserId is falsy, the parsed due date and the trimmed message. |
| ReminderRoutes.NoDueDateCheck | server/routes/reminderRoutes.js:30-36 | Any parseable due date is stored, past or not. |
| ReminderRoutes.CreateReminder | server/routes/reminderRoutes.js:23-44 | 400 on an invalid body. Otherwise the reply is `CreateReminderReply`, and a created reminder is appended. |
| ReminderRoutes.GroupReminders | server/routes/reminderRoutes.js:12-15 | Exactly the group's reminders, due date ascending. |
| ReminderRoutes.ListReminders | server/routes/reminderRoutes.js:10-20 | 400 for an invalid group id. Otherwise 200 with `GroupReminders`. |
| ReminderRoutes.Populate | server/routes/reminderRoutes.js:51 | The members' user records. Every member id naming a user contributes that user. |
| ReminderRoutes.Targets | server/routes/reminderRoutes.js:63-67 | All members unless memberId is truthy and names a member. Then exactly that member. |
| ReminderRoutes.Addresses | server/routes/reminderRoutes.js:69-75 | The addresses mailed are non-empty and belong to targets. |
| ReminderRoutes.AddressesAppend | server/routes/reminderRoutes.js:70-75 | Mailing a concatenation of audiences mails the first, then the second. |
| ReminderRoutes.AddressesComplete | server/routes/reminderRoutes.js:71-73 | Every target with an address is mailed. |
| ReminderRoutes.MailsTo | server/routes/reminderRoutes.js:72 | One mail per address, with the shared subject and text. |
| ReminderRoutes.MailsToAppend | server/routes/reminderRoutes.js:70-75 | Mailing one list after another sends the mails of each list, in order. |
| ReminderRoutes.Subject | server/routes/reminderRoutes.js:54 | Defines the subject line `Reminder: <group name> – settle up` shared by every mail of one send. |
| ReminderRoutes.MailTargets | server/routes/reminderRoutes.js:69-75 | The loop mails `Addresses(targets)` in order and appends exactly those mails. |
| ReminderRoutes.SendReminder | server/routes/reminderRoutes.js:47-80 | 400 / 404 with nothing changed. Otherwise mails "Reminder: <name> – settle up" to each targeted address; `sent` equals the number of addresses. |
| ReminderRoutes.SmsReply | server/routes/reminderRoutes.js:83-93 | 400 "Phone number required" iff phone is falsy. Otherwise the stub success. |
| HomeForm.ValidatePhone | client/src/pages/Home.jsx:25-30 | Passes iff the trimmed input is empty or ten digits. Otherwise the ten-digits message. |
| HomeForm.PaddedTrim | client/src/pages/Home.jsx:26 | Trimming ten digits padded with white space gives the digits. |
| HomeForm.PhoneAccepted | client/src/pages/Home.jsx:25-30 | Passes iff the raw input is all white space or ten digits padded with white space. |
| HomeForm.FirstAt | client/src/pages/Home.jsx:35 | The first '@', or the length when there is none. |
| HomeForm.ValidateEmail | client/src/pages/Home.jsx:32-38 | "Email is required." iff the text trims to "". Otherwise passes iff the trimmed text matches the pattern, failing with "Enter a valid email address.". |
| HomeForm.PatternParts | client/src/pages/Home.jsx:35 | An accepted text is a + "@" + b + "." + c with a, b, c non-empty and free of white space and '@'. |
| HomeForm.EmailPattern | client/src/pages/Home.jsx:35 | Defines the regular expression: text without space or "@" before the only "@", then a "." with such text on both sides. `PatternParts` and `EmailAccepted` prove its two directions. |
| HomeForm.PartsPattern | client/src/pages/Home.jsx:35 | Every such a + "@" + b + "." + c is accepted. |
| HomeForm.PatternShape | client/src/pages/Home.jsx:35 | An accepted text has exactly one '@', no white space, and a '.' after the '@'. |
| HomeForm.EmailAccepted | client/src/pages/Home.jsx:32-38 | An input whose trim is a + "@" + b + "." + c passes. |
| HomeForm.AcceptedEmailParts | client/src/pages/Home.jsx:32-38 | A passing input's trim has that form. |
| HomeForm.DigitsOf | client/src/pages/Home.jsx:203 | `replace(/\D/g, '')` keeps exactly the digits. |
| HomeForm.DigitsOfDigits | client/src/pages/Home.jsx:203 | Digits are left as they are. |
| HomeForm.DigitsOfAppend | client/src/pages/Home.jsx:203 | Stripping works piecewise: the digits of a concatenation are the digits of each part, in order. |
| HomeForm.HintShown | client/src/pages/Home.jsx:205 | Defines when the "Enter 10 digits only" hint shows: the phone is non-empty and not 10 characters long. |
| HomeForm.Sanitise | client/src/pages/Home.jsx:203 | The sanitised field is all digits, at most 10 long, and the first digits of the input. |
| HomeForm.SanitiseIdempotent | client/src/pages/Home.jsx:203 | Sanitising twice equals sanitising once. |
| HomeForm.HintMatchesCheck | client/src/pages/Home.jsx:205-207 | On a sanitised field, "Enter 10 digits only" shows iff the phone check would fail. |
| HomeForm.PhonePart | client/src/pages/Home.jsx:55 | The phone is sent, trimmed, iff it is not blank. |
| HomeForm.JoinCode | client/src/pages/Home.jsx:85 | The code is sent trimmed and upper-cased: it has the trimmed length, is upper case, and agrees with the trimmed input when both are lower-cased. `Text.UpperDeterminedByLower` shows these pin it down. |
| HomeForm.PhoneValue | client/src/pages/Home.jsx:55 | The phone arrives absent iff it was not sent. |
| HomeForm.SentPhoneAccepted | client/src/pages/Home.jsx:55 | A phone that passed the client's check passes the server's phone schema. |
| HomeForm.SentCodeUpper | client/src/pages/Home.jsx:85 | The server's upper-casing does not change the code the client sent. |
| HomeForm.FirstProblem | client/src/pages/Home.jsx:43-52 | The e-mail is checked first, then the phone. None iff both pass. |
| HomeForm.EmailBeforePhone | client/src/pages/Home.jsx:43-52 | When both fields fail, the e-mail's message is shown. |
| HomeForm.Form.constructor | client/src/pages/Home.jsx:13-21 | All fields are empty and the form is not busy. |
| HomeForm.Form.ChangePhone | client/src/pages/Home.jsx:203 | The field becomes the sanitised input, the error clears, and nothing else changes. |
| HomeForm.Form.HandleCreate | client/src/pages/Home.jsx:40-55 | A failed check sets its message and sends nothing. Otherwise the form turns busy and sends {name, e-mail, group name, phone if not blank}. |
| HomeForm.Form.HandleJoin | client/src/pages/Home.jsx:70-85 | The same checks; the request carries the trimmed, upper-cased code. |
| HomeForm.Form.RequestFailed | client/src/pages/Home.jsx:62-67 | The error text or the fallback is shown, and the form is not busy. |
| ExpenseModal.AmountProblem | client/src/components/AddExpenseModal.jsx:17-21 | Rejected iff NaN or ≤ 0, with "Please enter a valid amount.". |
| ExpenseModal.AsBody | client/src/components/AddExpenseModal.jsx:24-30 | The body the server reads has the request's fields, with the amount as a number. |
| ExpenseModal.SubCentAmountGap | client/src/components/AddExpenseModal.jsx:18 | An amount in (0, 0.01) passes the dialog but fails the server's `min(0.01)`. |
| ExpenseModal.SentAmountStored | client/src/components/AddExpenseModal.jsx:26 | From 0.01 up, both checks pass and the server stores the parsed amount. |
| ExpenseModal.BlankTitleRefused | client/src/components/AddExpenseModal.jsx:25 | A white-space title is sent as "" and refused by the server. |
| ExpenseModal.SentDate | client/src/components/AddExpenseModal.jsx:29 | The date field, or today when it is empty. |
| ExpenseModal.SentDateParsed | client/src/components/AddExpenseModal.jsx:29 | A sent date is parsed by the server rather than replaced by the server's clock. |
| ExpenseModal.ExpenseForm.constructor | client/src/components/AddExpenseModal.jsx:6-11 | Opens with empty title and amount and today's date. |
| ExpenseModal.ExpenseForm.HandleSubmit | client/src/components/AddExpenseModal.jsx:14-30 | A bad amount sets the message and sends nothing. Otherwise it sends the trimmed title, the parsed amount, payer = current user, the group, and the date or today. |
| ExpenseModal.ExpenseForm.RequestFailed | client/src/components/AddExpenseModal.jsx:33-37 | The error text or "Failed to add expense" is shown, and the form is not busy. |
| ReminderModal.DueDateProblem | client/src/components/AddReminderModal.jsx:14-21 | An empty date gets "Please pick a due date.". A parsed date before now gets "Due date must be in the future.". Others pass, unparseable ones included. |
| ReminderModal.DueNowAccepted | client/src/components/AddReminderModal.jsx:18 | A due date equal to now is accepted. |
| ReminderModal.SentMessage | client/src/components/AddReminderModal.jsx:28 | The trimmed message, or the default when that is empty. |
| ReminderModal.SentMessageShape | client/src/components/AddReminderModal.jsx:28 | The sent message is non-empty with no edge spaces. A white-space message becomes the default. |
| ReminderModal.AsBody | client/src/components/AddReminderModal.jsx:24-29 | The body carries group, user, date and message, and no forUserId. |
| ReminderModal.SentReminderStored | client/src/components/AddReminderModal.jsx:24-29 | The server stores such a request with no forUser, createdBy = sender, and the same message. |
| ReminderModal.ReminderForm.constructor | client/src/components/AddReminderModal.jsx:5-9 | Opens with no date and the default message. |
| ReminderModal.ReminderForm.HandleSubmit | client/src/components/AddReminderModal.jsx:11-29 | A failed guard sets its message and sends nothing. Otherwise it sends {groupId, userId = current user, dueDate, message trimmed or defaulted}. |
| ReminderModal.ReminderForm.RequestFailed | client/src/components/AddReminderModal.jsx:33-37 | The error text or "Failed to create reminder" is shown, and the form is not busy. |
| Avatar.ToInt32 | client/src/components/Avatar.jsx:13 | The signed 32-bit value congruent to x modulo 2^32, identical on that range. |
| Avatar.CharCode | client/src/components/Avatar.jsx:13 | A character code is below 0x110000. |
| Avatar.Step | client/src/components/Avatar.jsx:13 | One loop turn `((hash << 5) - hash) + code`. Without 32-bit wrap it is `31 * hash + code`, and it always lands within 2^31 of `code - hash`. |
| Avatar.HashOf | client/src/components/Avatar.jsx:12-13 | Defines the hash as `Step` folded over the seed from 0. `HashBound`, `HashExact` and `Hash` state its properties. |
| Avatar.HashBound | client/src/components/Avatar.jsx:12-13 | The hash grows by at most 2^31 + 0x110000 per character. |
| Avatar.HashExact | client/src/components/Avatar.jsx:12-13 | For seeds of up to 2^21 characters, the hash stays within the doubles' exact range (below 2^53). |
| Avatar.Hash | client/src/components/Avatar.jsx:12-13 | The loop computes `HashOf(seed)`. |
| Avatar.Hue | client/src/components/Avatar.jsx:14 | The hue is in 0..359 and equals \|hash\| mod 360. |
| Avatar.HueRange | client/src/components/Avatar.jsx:14 | The hue is the same for hash and −hash, and 0 iff hash is a multiple of 360. |
| Avatar.EmptySeedHue | client/src/components/Avatar.jsx:11-14 | An empty seed gives hash 0 and hue 0. |
| Avatar.Decimal | client/src/components/Avatar.jsx:15 | A non-empty string of digits. |
| Avatar.DecimalValue | client/src/components/Avatar.jsx:15 | Reading the written hue back gives the hue. |
| Avatar.Background | client/src/components/Avatar.jsx:15 | Defines the colour string `hsl(<hue>, 52%, 42%)` from the hue's decimal form. `Render` uses it. |
| Avatar.Initial | client/src/components/Avatar.jsx:8-9 | One character: the upper-cased first letter of the name, or "?" when the name is empty or missing. |
| Avatar.SizeClass | client/src/components/Avatar.jsx:10 | "sm" and "lg" get their classes; anything else gets the md default. |
| Avatar.Seed | client/src/components/Avatar.jsx:11 | userId if non-empty, else name if non-empty, else "". |
| Avatar.Render | client/src/components/Avatar.jsx:8-15 | The view is determined by name, size and seed alone: the same seed gives the same colour. |

## Left out

- JSON web tokens, the `protect` middleware and the authentication routes are not modelled. The handlers' replies are modelled without the token.
- Socket.io: rooms and payloads are reduced to an `Event(room, kind)` record in `Db.events`.
- The mail transport is reduced to a `Mail(to, subject, text)` record. The HTML body is not modelled.
- `populate` is modelled only where it decides something (the reminder audience). The populated fields of the replies are not.
- MongoDB query internals are not modelled:
  - a `find` is a filter over a sequence;
  - a `sort` is a stable sort by the key (the order among equal keys is not stated).
- The 500 replies from thrown exceptions are not modelled. Where the handler can fail a cast, the model replies 500 with an empty message; the message is Mongoose's.
- Floating-point arithmetic is not modelled: amounts are `real`. `parseFloat`, `Number(...)` and `new Date(...)` are parameters, with None standing for NaN or an invalid date. Infinity is not modelled.
- Schemas.Coerce: an array or object is taken to coerce to NaN (`Number([5])` is 5 in JavaScript).
- Records.ParseFloat: an array or object is taken to give NaN. In JavaScript `parseFloat([5])` is 5, because the array is first turned into the string "5".
- Records.IdField: the canonical form is fixed at 24 lower-case hexadecimal digits. The upper-case hex ids that Mongoose would cast are not modelled.
- `GET /groups/:id`, `GET /groups/my-groups` and the other routes outside the four routers' listed handlers are not modelled.
- The group's `currency` is always "INR"; the currency formatting in client/src/utils/currency.js is not part of this model.
- GroupRoutes.DrawCode: `Math.random` becomes the parameter `draws`, and the method requires one of them to be free. The format of a drawn code (six base-36 characters) is not modelled.
- Avatar.HashOf: the hash is exact in the model for every length. The program's doubles are exact only below 2^53, which `HashExact` shows covers seeds of up to 2^21 characters.
- Avatar.CharCode: a character outside the Basic Multilingual Plane is one code here. `charCodeAt` would see two UTF-16 units.
- Text: `trim`, `\s`, `\d`, `toUpperCase` and `toLowerCase` are modelled on ASCII. Unicode white space and case mapping are not.
- The browser's own form checks (`required`, `type="number"`, `min` on the date input, `maxLength`) are not modelled. The handlers are modelled as if any field value may reach them.
- Rendering, routing, localStorage, navigation and the success path after a request are not modelled. The forms' handlers are modelled up to the request they send and the failure path.
- The dashboard's "Remind" handler, data fetching and the delete button's visibility are not modelled (client/src/pages/GroupDashboard.jsx:446 is outside the balance block).
