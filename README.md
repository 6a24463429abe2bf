# Singleton, factory and strategy demos, modelled in Dafny

This project models the three pattern demonstrations in
`Design_patterns/singleton_factory_strategy/basic.cpp`:

- **Lazy singleton logger** (`singleton.dfy`, module `Singleton`). `Logger::instance`
  starts as null. `getInstance` creates the Logger on the first call and returns the
  stored instance on every later call. `log(level, message)` writes
  `"[" + level + "] " + message + "\n"`. The static pointer is the field of class
  `LoggerStatics`. Its behaviour over any sequence of calls is specified by the pure
  functions `Acquire` / `AcquireEach` on a `Lazy<H>` slot.
- **Database connection factory** (`factory.dfy`, module `Factory`). `createDatabase`
  compares the type string with `"MySQL"`, `"PostgreSQL"` and `"MongoDB"` in turn, with
  exact, case-sensitive equality. It returns the matching connection class, or null
  (`None`). Each class renders fixed `connect()` and `execute(query)` lines.
- **Payment strategies** (`payment.dfy`, module `Payment`). There are three strategies:
  credit card, PayPal and crypto wallet. Each renders a `"Paid $<amount> using <method>: <id>"`
  line. `PaymentContext` holds at most one current strategy. `setStrategy` replaces it.
  `executePayment` either reports that no strategy is set or dispatches to the current one.
- `cpp_string.dfy` (module `CppString`) models the pieces of `std::string` and `size_t`
  these rely on. A `std::string` is a Dafny string with one char per C++ `char`: each
  char holds that byte's value (below 256), so a UTF-8 encoded character takes several
  chars and lengths count bytes, as `length()` and `substr` do. `size_t` is taken to be
  64 bits wide, so `length() - 4` wraps modulo 2^64. Only the strategies that slice their
  string (`Identifier`) depend on this, so only the strategy fields are typed `Str`; the
  members that only compare or concatenate strings (`CreateDatabase`, `Execute`, `LogLine`,
  `Pay`'s amount) take plain `string`, and their results are the same either way. `substr(pos, count)` throws
  `std::out_of_range` when `pos` is past the end. So a card number shorter than four
  characters makes `pay` throw rather than print. The model returns that as
  `OutOfRangeThrown`. The file is compiled as C++17 (basic.cpp:231), so the operands of
  `<<` are evaluated left to right. `OutOfRangeThrown` therefore carries the head of the
  line, which was already inserted into the stream when the exception escaped. Nothing
  catches the exception, so whether that text reaches the console is not modelled.
- `wrappers.dfy` (module `Wrappers`) holds the `Option` type that stands for a null
  pointer or a thrown exception.

Every message is a returned string, including the trailing `"\n"` that the source writes
at the end of each line. The `double amount` is taken as the text the ostream prints for it.

## Model

| member | source | states |
|---|---|---|
| `CppString.SizeSub` | Design_patterns/singleton_factory_strategy/basic.cpp:161 | `length() - 4` on size_t: the result is the unique size_t congruent to the difference; it is the plain difference when no wrap happens, and larger than the length when it wraps |
| `CppString.Substr` | Design_patterns/singleton_factory_strategy/basic.cpp:161 | `substr(pos, count)` succeeds exactly when `pos <= size()`; the result is a prefix of the tail from `pos`, of length at most `count`, and it is either `count` long or the whole tail |
| `Singleton.Acquire` | Design_patterns/singleton_factory_strategy/basic.cpp:27-35 | one `getInstance` call leaves the slot holding the returned handle; it constructs exactly when the slot was empty, and then returns and stores the newly made Logger; otherwise it returns the stored instance |
| `Singleton.EveryCallReturnsSameInstance` | Design_patterns/singleton_factory_strategy/basic.cpp:27-35 | over any non-empty sequence of calls: every call returns the same instance (the stored one, or else the first one created), the slot ends holding it, and the Logger is constructed exactly once from an empty slot and never from a full one |
| `Singleton.LoggerStatics.constructor` | Design_patterns/singleton_factory_strategy/basic.cpp:43 | the static `instance` pointer starts out null |
| `Singleton.LoggerStatics.GetInstance` | Design_patterns/singleton_factory_strategy/basic.cpp:27-35 | the new slot and the returned handle are what `Acquire` gives from the old slot; an empty slot yields a freshly allocated Logger; a filled slot returns the stored instance and changes nothing |
| `Singleton.LogLine` | Design_patterns/singleton_factory_strategy/basic.cpp:39 | the log line is `|level| + |message| + 4` long: a `[` at position 0, then the level, then `"] "`, then the message, then a final newline |
| `Singleton.Logger.Log` | Design_patterns/singleton_factory_strategy/basic.cpp:37-40 | `log(level, message)` writes exactly `LogLine(level, message)` |
| `Singleton.LogLineDeterminesEntry` | Design_patterns/singleton_factory_strategy/basic.cpp:39 | for levels without `]` (INFO, WARNING, ERROR among them) a log line determines both the level and the message |
| `Singleton.LogLineAmbiguousWithBracketInLevel` | Design_patterns/singleton_factory_strategy/basic.cpp:39 | a `]` inside a level lets two different (level, message) pairs write the same line |
| `Factory.CreateDatabase` | Design_patterns/singleton_factory_strategy/basic.cpp:112-122 | a returned class has exactly the given string as its type name; null is returned only when the string equals no type name |
| `Factory.CreateDatabaseExactly` | Design_patterns/singleton_factory_strategy/basic.cpp:112-118 | `createDatabase(t)` yields class `db` if and only if `t` equals `db`'s type name |
| `Factory.CreateDatabaseRejectsOthers` | Design_patterns/singleton_factory_strategy/basic.cpp:119-121 | the result is null if and only if the string is none of `"MySQL"`, `"PostgreSQL"`, `"MongoDB"` |
| `Factory.CreateDatabaseIsCaseSensitive` | Design_patterns/singleton_factory_strategy/basic.cpp:113-121 | the empty string and lower-, upper- or mixed-case variants of the names yield null |
| `Factory.Connect` | Design_patterns/singleton_factory_strategy/basic.cpp:82-103 | each class's `connect()` line (MySQL 82-84, PostgreSQL 92-94, MongoDB 102-104) is `"Connected to "`, that class's own type name, then a newline |
| `Factory.Execute` | Design_patterns/singleton_factory_strategy/basic.cpp:85-107 | each class's `execute(q)` line (MySQL 85-87, PostgreSQL 95-97, MongoDB 105-107) is its own type name, `" executing: "`, `q`, then a newline |
| `Factory.ProductAnnouncesItsTypeName` | Design_patterns/singleton_factory_strategy/basic.cpp:80-122 | a connection made from type string `t` connects with `"Connected to " + t + "\n"` and executes `q` as `t + " executing: " + q + "\n"` |
| `Factory.ExecuteDeterminesClassAndQuery` | Design_patterns/singleton_factory_strategy/basic.cpp:85-106 | two `execute` lines are equal only if they come from the same class and the same query |
| `Factory.ConnectDeterminesClass` | Design_patterns/singleton_factory_strategy/basic.cpp:82-103 | equal `connect` lines come from the same class |
| `Payment.Identifier` | Design_patterns/singleton_factory_strategy/basic.cpp:159-184 | credit card: defined exactly when the number has at least 4 characters, and is then its last 4; PayPal: the whole e-mail; crypto: the first `min(8, length)` characters of the address followed by `"..."` |
| `Payment.Pay` | Design_patterns/singleton_factory_strategy/basic.cpp:159-184 | `pay` prints unless the strategy is a card number shorter than 4; the line printed is `"Paid $" + amount + " using " + method + ": " + identifier + "\n"`; on the throwing path only `"Paid $" + amount + " using Credit Card: "` has been inserted into the stream |
| `Payment.CardRevealsOnlyLastFour` | Design_patterns/singleton_factory_strategy/basic.cpp:159-162 | two card numbers that share their last four characters produce identical payment lines |
| `Payment.WalletRevealsOnlyFirstEight` | Design_patterns/singleton_factory_strategy/basic.cpp:182-184 | two wallet addresses that share their first eight characters produce identical payment lines |
| `Payment.CardLineEndsWithLastFour` | Design_patterns/singleton_factory_strategy/basic.cpp:159-162 | a card payment line ends with the card number's last four characters and a newline |
| `Payment.NoStrategyLineIsNotAPayment` | Design_patterns/singleton_factory_strategy/basic.cpp:199-204 | the no-strategy message differs from every line or partial line any strategy writes |
| `Payment.DemoCardPayment` | Design_patterns/singleton_factory_strategy/basic.cpp:213-214 | the card `"2322-1232-2231-0292"` pays 100.2 with `"Paid $100.2 using Credit Card: 0292\n"` |
| `Payment.DemoCryptoPayment` | Design_patterns/singleton_factory_strategy/basic.cpp:216-217 | the wallet `"0x29297562202672020220010"` pays 2921.63 with `"Paid $2921.63 using Crypto wallet: 0x292975...\n"` |
| `Payment.ShortCardThrows` | Design_patterns/singleton_factory_strategy/basic.cpp:159-161 | a 3-character and an empty card number throw `out_of_range` after the head of the line was inserted into the stream |
| `Payment.Utf8CardCountsBytes` | Design_patterns/singleton_factory_strategy/basic.cpp:161 | `length()` and `substr` count bytes: a card of two digits and a UTF-8 encoded e-acute (4 bytes) shows all four bytes instead of throwing |
| `Payment.PaymentContext.constructor` | Design_patterns/singleton_factory_strategy/basic.cpp:191-193 | a fresh context has no strategy |
| `Payment.PaymentContext.SetStrategy` | Design_patterns/singleton_factory_strategy/basic.cpp:195-197 | the current strategy becomes the argument (a null pointer clears it) |
| `Payment.PaymentContext.ExecutePayment` | Design_patterns/singleton_factory_strategy/basic.cpp:199-205 | with no strategy the result is `"No Payment strategy set !\n"`; otherwise it is exactly the current strategy's `pay` outcome; the context is not modified |
| `Payment.LastStrategyWins` | Design_patterns/singleton_factory_strategy/basic.cpp:195-204 | on a fresh context, the first result (before any strategy is set) is the no-strategy message; after two `setStrategy` calls, the second result is the second strategy's `pay` outcome |

## Left out

- The mutex and the double-checked lock in `Logger` (basic.cpp:19, 28-33, 38). Only the sequential lazy-initialisation contract is modelled.
- Writing to `cout`. Each message is returned as a string; buffering and flushing, and so whether text inserted before an uncaught exception reaches the console, are not modelled.
- The `double amount` and its ostream formatting (basic.cpp:150, 160, 172, 183). This is floating-point printing, so the amount is taken as its formatted text.
- Memory management. This covers `new`, the strategies never deleted, `unique_ptr`/`make_unique`, the virtual destructors and the deleted copy operations of `Logger`.
- The test drivers and `main` (basic.cpp:46-59, 125-137, 208-229). The exceptions are the two payments of `testStrategy`, stated as `DemoCardPayment` and `DemoCryptoPayment`. `testFactory` dereferences the factory result without a null check, which is demo code and not a contract.
- The levels INFO, WARNING and ERROR named in the header comment (basic.cpp:13) are not enforced by `log`. The model accepts any level string, as the code does.
- `Design_patterns/Notification Engine/notification_engine.cpp` (the observer/decorator notification pipeline) is not part of this model.
