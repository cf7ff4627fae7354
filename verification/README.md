# Twezimbe backend core in Dafny

A model of the rule-bearing core of the Twezimbe community and bereavement-fund
backend (TypeScript, Express and Mongoose), with proofs about it:

- **Wallet addresses** (`generateWallet`). The generator reads the newest
  wallet and takes its address from index 9 on. It parses that number, adds one
  and zero-pads it back to the old width. The new address is
  `DDMM ++ objectCode ++ sequence`, stored as a new wallet (zero balance, empty
  Credit/Debit history, owner type `User` or `Bf`).
- **Bereavement funds** (`createBf`, `getGroupBf`, fund and settings records).
  A group gets at most one fund, guarded by the group's `has_bf` flag.
  `accountInfo` is required unless the account type is `wallet`.
  `walletAddress` is required exactly when it is.
  Beneficiary bounds are `max <= 1` (default 1) and `min >= 0` (default 0).
- **Accounts** (`generateProfileID`, `signUp`, `regenerateOTP`, `verifyOTP`,
  `signIn`, user record). A profile ID is a 20-character
  `DDMM ++ 14-character personal ID ++ YY`. An account moves from unverified
  to verified through an OTP with an expiry. Sign-in is gated on the password
  and then on `verified`. `toJSON` hides the password, the salt and `__v`.
- **Direct-message rooms** (`createDMChatroom`). The request is validated.
  Then an existing `dm` room whose members include every requested member is
  returned; otherwise a new room is appended.

Collections are Dafny sequences in creation order, so "newest" means the last
element and `findOne` means the first match. A user's `_id` is its position.
Each request handler is a pure step function from the old collections to the
new collections plus the response (`CreateBfStep`, `SignUpStep`, …).
A class holding the collections (`WalletStore`, `BfStore`, `UserStore`,
`ChatroomStore`) performs the same steps in place. Each of its methods is
proved equal to the step function.

Modelling choices:
- The clock (`moment()`, `new Date()`), `Math.random()`, `GenerateOTP` and
  `GenerateSalt` are parameters.
- Password hashing, `ValidatePassword` and `GenerateToken` are function-typed
  parameters.
- The JavaScript string and number built-ins the core relies on are written
  out in `jstext.dfy`: `parseInt(s, 10)`, `Number.toString`, `padStart`,
  `padEnd`, `slice` and `substring`.
- Mongoose validation is a function from the document handed to
  `create`/`save` to `Option<record>`. For a string path, `required` means
  present and not empty.

Where the code and its evident intent part ways, the model follows the code, with one
exception: the request guard of `createDMChatroom`. The guard as written is
kept as `RejectedAsWritten`, and `CreateDmStep` uses the corrected guard (see
Findings). Elsewhere:
- `signUp` keeps a client-supplied `verified: true`.
- `verifyOTP` looks the user up by OTP alone (the first match).
- The room lookup in `createDMChatroom` matches only `dm` rooms, whatever type
  was requested.

## Model

| member | source | states |
|---|---|---|
| JsText.ParseInt | src/utils/generateWallet.ts:11 | `parseInt(s, 10)` is NaN exactly when no digit follows the optional sign. Otherwise it is the sign times the value of the leading run of digits ("-5" gives -5, "12ab" gives 12). |
| JsText.NatToString | src/utils/generateWallet.ts:13 | The decimal form of n: digits only, no leading zero, and it reads back as n. |
| JsText.NumToString | src/utils/generateWallet.ts:13 | `toString` of NaN is "NaN". Of a non-negative integer it is its decimal form; of a negative one, "-" followed by the decimal form of its magnitude. |
| JsText.PadStart | src/utils/generateWallet.ts:13 | `padStart`: the length is the larger of width and the length of s, s is kept at the right, and the fill sits on the left. |
| JsText.Slice | src/utils/generateWallet.ts:11 | `slice(start)` is empty past the end. Otherwise it is the tail from `start`. |
| JsText.LeadingDigits | src/utils/generateWallet.ts:11 | The longest all-digit prefix: the next character is not a digit, and an all-digit string is its own prefix. |
| JsText.ValueOfSnoc | src/utils/generateWallet.ts:11-13 | Appending a digit multiplies the value by ten and adds the digit. |
| JsText.ValueOfLeadingZeros | src/utils/generateWallet.ts:13 | Zero-padding on the left does not change a number's value. |
| JsText.ParseIntPadded | src/utils/generateWallet.ts:11-13 | `parseInt` undoes `padStart(n.toString(), width, '0')` for every width (the round trip the generator relies on). |
| JsText.PadEnd | src/controller/auth.controllers.ts:225 | `padEnd`: the length is the larger of width and the length of s, s is kept at the left, and the fill sits on the right. |
| JsText.Substring | src/controller/auth.controllers.ts:226 | `substring(start, end)` for `start <= end` is the slice of s between start and end, each clamped to the length of s. |
| Moment.TwoDigits | src/utils/generateWallet.ts:6 | A two-digit, zero-padded field whose value is n. |
| Moment.DayMonth | src/utils/generateWallet.ts:6 | `format("DDMM")` is four digits: the first two read as the day, the last two as the month. |
| Moment.TwoDigitYear | src/controller/auth.controllers.ts:222 | `format("YY")` is two digits reading as year mod 100. |
| WalletModel.CastRefType | src/model/wallet.model.ts:5 | The refType enum accepts exactly "User" and "Bf". |
| WalletModel.CreateWallet | src/model/wallet.model.ts:5-22 | Creation succeeds iff walletAddress is present, refType (if given) is in the enum, and every entry names a user. The new wallet carries the given address and ref. A given balance or history is stored as given; otherwise balance is 0 and history is empty. |
| WalletModel.CreateEntry | src/model/wallet.model.ts:11-18 | An entry exists iff type ∈ {Credit, Debit}, an amount is given and a user is given. Its date defaults to the creation time. |
| WalletModel.DuplicateAddressesAccepted | src/model/wallet.model.ts:10 | With no unique index, a store with two wallets sharing an address is still valid. |
| GenerateWallet.LastAddress | src/utils/generateWallet.ts:7 | The previous address is the newest wallet's, and is absent only for an empty store. |
| GenerateWallet.NextSequence | src/utils/generateWallet.ts:8-14 | With no previous address the sequence is "00001". Otherwise it is the parsed suffix + 1, left-padded with '0' to the old width and never truncated. When that value is at least 0 it is written as digits reading back as the value; when it is negative it is "-" and the digits of its magnitude, so the zero padding lands before the sign ("-00005" gives "0000-4"). "NaN" is padded when the suffix does not parse. |
| GenerateWallet.NextAddress | src/utils/generateWallet.ts:6-16 | The address is DDMM ++ objectCode ++ sequence, so its length is 4 plus the lengths of objectCode and sequence. |
| GenerateWallet.Generate | src/utils/generateWallet.ts:5-19 | One call: the returned address is the stored one. Exactly one wallet is appended (balance 0, empty history, the given ref and refType) and earlier wallets are untouched. An enum-rejected refType stores nothing. |
| GenerateWallet.WalletStore.GenerateWallet | src/utils/generateWallet.ts:5-19 | The in-place store update equals `Generate` on the old store. |
| GenerateWallet.FirstAddress | src/utils/generateWallet.ts:8-16 | From an empty store the first address ends in "00001". |
| GenerateWallet.SequenceAdvances | src/utils/generateWallet.ts:11-16 | With a 5-character objectCode, the new suffix's value is the previous suffix's value + 1, whatever date or owner the previous wallet had. |
| GenerateWallet.FirstAddressNumbered | src/utils/generateWallet.ts:8-16 | An empty store's first address carries the 5-character suffix "00001". |
| GenerateWallet.FirstSequenceValue | src/utils/generateWallet.ts:8 | The starting code "00001" is all digits and denotes 1. |
| GenerateWallet.NumberedFirst | src/utils/generateWallet.ts:8-16 | The first call on an empty store with a 5-character code gives an address whose suffix is a digit string worth 1. |
| GenerateWallet.NextBase | src/utils/generateWallet.ts:8-16 | Each 5-character-code call numbers its address one above the store's newest and becomes the newest. |
| GenerateWallet.RunChain | src/utils/generateWallet.ts:7-17 | Over sequential calls, each call builds on the address the previous call stored. |
| GenerateWallet.SequencesIncrease | src/utils/generateWallet.ts:11-16 | Sequential calls with 5-character codes get suffix values base+1, base+2, …: strictly increasing, never reset by day or owner type. |
| GenerateWallet.SequentialAddressesDistinct | src/utils/generateWallet.ts:11-18 | Hence such sequential calls never return the same address twice. |
| GenerateWalletShortCode.SuffixAfterFirst | src/utils/generateWallet.ts:11-13 | For a 2-character code, reading from index 9 turns "…00001" into the sequence "02". |
| GenerateWalletShortCode.SuffixPastEnd | src/utils/generateWallet.ts:11-13 | An address no longer than 9 characters yields the sequence "NaN". |
| GenerateWalletShortCode.ShortCodeSecond | src/utils/generateWallet.ts:11-16 | After "DDMM<code>00001" with a 2-character code, the next call returns "DDMM<code>02". |
| GenerateWalletShortCode.ShortCodeLater | src/utils/generateWallet.ts:11-16 | After any address of at most 9 characters, the next call returns "DDMM<code>NaN". |
| GenerateWalletShortCode.TwoCharacterCodeRepeats | src/utils/generateWallet.ts:11-16 | With a 2-character code, four calls made one after another on an empty store return …00001, …02, …NaN, …NaN: the address repeats. |
| BfModel.CastAccountType | src/model/bf.model.ts:23-27 | accountType accepts exactly bank, mobile and wallet. |
| BfModel.ValidateFund | src/model/bf.model.ts:13-54 | A save succeeds iff fundName, fundDetails, groupId and createdBy are present, accountType is in the enum, accountInfo is present unless the type is wallet, and walletAddress is present when it is. A saved fund satisfies every schema rule and carries the document's fields. |
| BfModel.AccountInfoRequiredUnlessWallet | src/model/bf.model.ts:28-33 | Omitting accountInfo is rejected iff accountType ≠ wallet. |
| BfModel.WalletAddressRequiredForWallet | src/model/bf.model.ts:34-39 | Omitting walletAddress is rejected iff accountType = wallet. |
| BfModel.ValidFundHasDestination | src/model/bf.model.ts:28-39 | Every valid fund carries accountInfo or walletAddress. |
| BfSettings.CreateSettings | src/model/bf_settings.model.ts:5-7 | Accepted iff bf_id is given, max ≤ 1 and min ≥ 0. Defaults are max 1 and min 0; given values are kept. |
| BfSettings.DefaultsAccepted | src/model/bf_settings.model.ts:6-7 | The default record (1, 0) passes both bounds. |
| BfSettings.MinimumMayExceedMaximum | src/model/bf_settings.model.ts:5-7 | No rule relates min to max: min > max is accepted. |
| BfController.CreateBfStep | src/controller/bf.controller.ts:8-48 | Checks run in order: invalid token (403), unknown group (404), `has_bf` already set (400); none of these changes anything. Past them, the fund is created iff the schema accepts the document, otherwise the save fails (500) with nothing changed. On success exactly that validated fund (every given field, createdBy = requester) is appended, and only that group's `has_bf` becomes true. |
| BfController.CreateBfKeepsOneFundPerGroup | src/controller/bf.controller.ts:21-38 | If `has_bf` marks exactly the groups owning a fund, createBf keeps that so and never gives a group a second fund. |
| BfController.BfStore.CreateBf | src/controller/bf.controller.ts:8-48 | The in-place update equals `CreateBfStep` and preserves the one-fund-per-group invariant. |
| BfController.FindGroupFund | src/controller/bf.controller.ts:58 | `findOne({ groupId })` returns the first fund of that group, or none exactly when no fund belongs to it. |
| BfController.GetGroupBf | src/controller/bf.controller.ts:51-72 | An invalid token is denied. With a valid token, the group's first fund is returned when one exists, and "not found" comes back iff none has that groupId. |
| BfController.CreatedFundIsFound | src/controller/bf.controller.ts:25-62 | After createBf succeeds for a group, getGroupBf for that group returns the new fund. |
| UserModel.CastRole | src/model/user.model.ts:58-66 | role accepts exactly User, Manager and Admin. |
| UserModel.CreateUser | src/model/user.model.ts:34-66 | Accepted iff firstName, lastName, email, otp and otpExpiryTime are present and role (if given) is in the enum. Defaults are role User, verified false and the fixed profile-picture URL. |
| UserModel.ToJson | src/model/user.model.ts:68-74 | The output has `id` = `_id` and no password, salt or `__v`; every other key is kept with its value. |
| AuthController.PersonalId | src/controller/auth.controllers.ts:224-226 | Always 14 characters: a given national ID is truncated, or zero-padded on the right. Otherwise the result starts with the random string's characters 2..16. |
| AuthController.ProfileId | src/controller/auth.controllers.ts:220-229 | The profile ID is 20 characters: DDMM, the 14-character personal ID, then YY. |
| Common.FindFirst | src/controller/auth.controllers.ts:17 | `findOne`'s choice: the position of the first element satisfying the filter, or none exactly when no element does. |
| AuthController.FindByEmail | src/controller/auth.controllers.ts:17 | The first user with this email, or none exactly when no user has it. |
| AuthController.FindByOtp | src/controller/auth.controllers.ts:154 | The first user holding this OTP, or none exactly when no user holds it. |
| AuthController.SignUpStep | src/controller/auth.controllers.ts:15-61 | A known email is rejected and nothing is created. For a new email, an account is created iff the schema accepts the body; a body the schema rejects is answered as rejected, never as "User already exists", and nothing is stored. The new user is exactly the schema's result: hashed password, salt, OTP and expiry. A Manager is verified, a client-sent `verified: true` is kept, anyone else starts unverified, and with no role the role is User. |
| AuthController.RegenerateOtpStep | src/controller/auth.controllers.ts:130-149 | An unknown id fails and changes nothing. Otherwise only that user's otp and otpExpiryTime change; `verified` is kept. |
| AuthController.VerifyOtpStep | src/controller/auth.controllers.ts:152-170 | "Invalid OTP" iff no user holds it. "Expired" iff the first holder's expiry is before now (nothing changes). Otherwise exactly that user becomes verified. |
| AuthController.SignIn | src/controller/auth.controllers.ts:64-94 | An unknown email or wrong password is invalid, and a correct password on an unverified user gets "verify first". A verified user with a valid password gets the token for their id and email, and a token is issued in no other case. |
| AuthController.SignUpVerifySignIn | src/controller/auth.controllers.ts:15-170 | After signUp, sign-in says "verify first". After verifyOTP with the user's unexpired OTP, the same password signs in. |
| AuthController.UserStore.SignUp | src/controller/auth.controllers.ts:15-61 | The in-place update equals `SignUpStep`. |
| AuthController.UserStore.RegenerateOtp | src/controller/auth.controllers.ts:130-149 | The in-place update equals `RegenerateOtpStep`. |
| AuthController.UserStore.VerifyOtp | src/controller/auth.controllers.ts:152-170 | The in-place update equals `VerifyOtpStep`. |
| ChatroomController.CastRoomType | src/model/chatroom.model.ts:7 | The room type enum accepts exactly dm and channel. |
| ChatroomController.GuardAsWrittenAdmitsMissingMembers | src/controller/chatroom.controller.ts:58 | The written guard lets a request with no members list through; the intended guard rejects it. |
| ChatroomController.GuardsAgreeWhenMembersSent | src/controller/chatroom.controller.ts:58 | When a members list is sent, the two guards agree. |
| ChatroomController.FindDm | src/controller/chatroom.controller.ts:61-64 | The first `dm` room containing all requested members, or none exactly when no such room exists. |
| ChatroomController.CreateDmStep | src/controller/chatroom.controller.ts:53-87 | An invalid token is denied and an invalid request rejected, with nothing stored. For a valid request, the first covering `dm` room is returned with nothing stored when one exists. Otherwise exactly one room with the given name, type and members is appended when the type is in the enum; a type outside it makes the create fail, with nothing stored. |
| ChatroomController.SecondDmRequestFindsFirst | src/controller/chatroom.controller.ts:61-74 | Two identical `dm` requests create at most one room; the second returns the first one's room. |
| ChatroomController.ChannelRequestsDuplicate | src/controller/chatroom.controller.ts:62-74 | A `channel` request is never matched by the lookup, so repeating it appends a duplicate room. |
| ChatroomController.ChatroomStore.CreateDmChatroom | src/controller/chatroom.controller.ts:53-87 | The in-place update equals `CreateDmStep`. |

## Left out

- Concurrency: two `generateWallet` calls can interleave between the read of the newest wallet and the create. The model runs calls one at a time and claims no uniqueness under concurrent calls.
- JsText.ParseInt: does not model `parseInt`'s skipping of leading white space. When the newest stored address was generated with a 5-character objectCode, its suffix from index 9 is the sequence that call produced: "00001", zero-padded digits, or a zero-padded "NaN" or "-n". None of these starts with white space, so the difference does not arise there. With other code lengths it can: objectCode "ABCDE " gives the suffix " 00001", which JavaScript reads as 1 and the model as NaN.
- JsText.PadStart, JsText.PadEnd, JsText.Slice, JsText.Substring: strings are sequences of Unicode code points, while JavaScript's `length`, `slice`, `padStart`, `padEnd` and `substring` count UTF-16 code units. Lengths and indices therefore differ for characters outside the Basic Multilingual Plane. An emoji in a national ID shifts the 14-character cut of `generateProfileID`, and one in an objectCode shifts the index-9 cut of `generateWallet`.
- Numbers are integers. Floating-point precision loss above 2^53 is not modelled, nor is the exponent notation `toString` uses from 1e21 on.
- I/O is left out: the clock, `Math.random()`, `GenerateOTP`'s arithmetic, `GenerateSalt`, sending email, and writing responses.
  - Dates, random strings, OTPs and expiries are parameters.
  - Responses are outcome values.
- src/utils/password.utils.ts is not part of this model. Hashing, password validation and token generation are function parameters; `ValidateToken` is a boolean parameter.
- AuthController.SignUpStep: the `RoleUser` record created after sign-up is not modelled, because role.model and user_role hold no rule of the core.
- AuthController.SignUpStep: the account-created response is the new user's position rather than the text message, and the branch-specific email bodies are not modelled.
- AuthController.FindByEmail: a body with no email is modelled as a string; Mongo's match-anything on an `undefined` filter value is not modelled.
- AuthController.FindByOtp: the same holds for an absent OTP.
- AuthController.VerifyOtpStep: the submitted OTP, like the email of `signUp` and `signIn`, is taken as a typed scalar. The JSON body is passed unsanitised into `findOne`, so two behaviours are not modelled. First, an operator object such as `{"$gt": 0}` matches the first user holding any OTP, since every generated OTP is at least 100000; that account, if its OTP is unexpired, is verified without the OTP being known, and the email filters accept operators in the same way. Second, a non-numeric OTP string makes the query throw a CastError (500) instead of answering "Invalid OTP".
- AuthController.RegenerateOtpStep: an id that is not a valid ObjectId throws a cast error (500). The model reports it as an unknown account.
- BfController.CreateBfStep: a `groupId` that is not a valid ObjectId makes `Group.findById` throw a CastError, answered with 500. Ids are natural numbers in the model, so that path cannot be represented.
- BfController.GetGroupBf: likewise, a malformed `groupId` makes `Bf.findOne` throw, answered with 500; this path is not represented.
- ChatroomController.CreateDmStep: a malformed member id makes the `findOne` lookup throw; ids are natural numbers, so this path is not represented.
- Wallets are "newest by `createdAt`". The model takes the last appended wallet, so ties between equal timestamps are not modelled.
- BfController.GetGroupBf: the `populate('createdBy', ...)` join is not modelled; the stored fund is returned.
- BfController.CreateBfStep: `group.save()` after the fund is saved is treated as never failing, so a fund saved without its flag update is not modelled.
- ChatroomController.CreateDmStep: the `populate('members')` joins are not modelled.
- ChatroomController.CreateDmStep: a create the `type` enum rejects is the `CreateFailed` outcome.
- ChatroomController.CreateDmStep: the as-written path for a request with no members list (an `$all` of `undefined`) is not modelled past the guard. The model uses the corrected guard; see Findings.
- UserModel.CreateUser: only the paths the account rules touch are modelled (names, email, password, salt, verified, otp, expiry, role, profile picture). Optional paths with no rule (phone, birthday, addresses, flags) are left out.
- Wallet balance changes, credit/debit and transfers are not modelled, because no code in the core performs them; only the history entry's shape is.
- The other routes in these files are left out: `getUserProfile`, `forgotPassword`, `resetPassword`, `updateAccount`, the Cloudinary upload, two-factor TOTP, `getUserChatRooms` and `useGetSingleChatroom`. They are query plumbing or foreign services.
- The group controller is not modelled. It is used only through the `has_bf` flag.

## Findings

| source | as written | input that shows it | evidently intended | confidence | as-written member | corrected member |
|---|---|---|---|---|---|---|
| src/controller/chatroom.controller.ts:58 | the test `members?.length < 2` with `members` absent is `undefined < 2`, which is false, so the request is not rejected | body `{ type: "dm", name: "x" }` with no `members` passes validation | a request without at least two members is "Invalid request" | not executed | ChatroomController.GuardAsWrittenAdmitsMissingMembers | ChatroomController.CreateDmStep |
