# mosh: OCB-AES test harness and client bootstrap, modelled in Dafny

This project models two pieces of the mosh repository and proves properties
of them.

**The OCB-AES conformance harness** (`src/tests/ocb-aes.cc`) drives an
authenticated-encryption engine with known-answer vectors and with the
iterative self-test of Appendix A of draft-krovetz-ocb-03. The engine
(`ae_init`, `ae_encrypt`, `ae_decrypt`, `ae_clear`) is not visible. It is a
pair of arbitrary functions whose only promise is the length contract:
encryption appends one 16-byte tag, and a successful decryption removes one.
The model keeps the harness's own state changes as imperative Dafny:
- `AlignedBuffer` is a class over a byte array;
- `memset`/`memcpy` are array methods;
- the context is a class that is keyed and later cleared;
- the tamper loop XORs a byte of a fresh copy in place;
- the iterative test fills a 22,400-byte accumulator through an advancing
  write offset.

A `fatal_assert` that fails stops the run. Here it makes the test method
return `passed == false`.

**The client bootstrap** (`src/frontend/mosh.cc`, `main`) covers:
- the option loop;
- the prediction-mode check and its precedence;
- the server-port request check;
- the `getline` loop that finds the server's `MOSH CONNECT <port> <key>` line, with that line's parser as written (see "## Findings");
- the final key/port gate.

Each `die` is an `Err` result. The ssh session that produces the server's
output is not modelled: the collected output is an input string. The
environment variable `MOSH_PREDICTION_DELAY` is an optional input. The
options arrive already decoded by `getopt_long`.

Modules:
- `Wrappers`: `Option` and `Result`.
- `AlignedBuffers`: buffers, `memcmp`, `equal`, `memset`, `memcpy`.
- `AeEngine`: the opaque engine and its context.
- `OcbVectors`: `test_encrypt`, `test_decrypt`, `test_vector`, `TEST_VECTOR`.
- `OcbIterative`: `test_iterative`.
- `StringSearch`: the `std::string` searches and `getline`.
- `MoshBootstrap`: the client bootstrap.

## Model

| member | source | states |
|---|---|---|
| AlignedBuffers.Memcmp | src/tests/ocb-aes.cc:60 | the result is -1, 0 or 1; it is 0 exactly when the bytes agree over the range; otherwise its sign is set by the first differing byte, compared unsigned |
| AlignedBuffers.Equal | src/tests/ocb-aes.cc:58-61 | true exactly when both buffers hold the same byte sequence; buffers of different lengths are unequal, never an error |
| AlignedBuffers.AlignedBuffer.FromBytes | src/tests/ocb-aes.cc:137-141 | the new buffer holds exactly the first `len` bytes of the source |
| AlignedBuffers.Memset | src/tests/ocb-aes.cc:469 | the first `n` bytes become the value and the rest are unchanged |
| AlignedBuffers.Memcpy | src/tests/ocb-aes.cc:499 | `n` bytes land at the offset and nothing else in the destination changes |
| AeEngine.AeContext.constructor | src/tests/ocb-aes.cc:63-68 | a context keyed with the given 16-byte key and ready for use |
| AeEngine.AeContext.Scrap | src/tests/ocb-aes.cc:70-73 | the key material is zeroised and the context can no longer be used |
| AeEngine.AeContext.Encrypt | src/tests/ocb-aes.cc:83-87 | returns `pt.len() + TAG_LEN`, and the output buffer starts with the engine's ciphertext and tag; the bytes after them are unchanged |
| AeEngine.AeContext.Decrypt | src/tests/ocb-aes.cc:109-113 | returns `AE_INVALID` when authentication fails; otherwise returns `ct.len() - TAG_LEN`, the output buffer starts with the recovered plaintext, and the bytes after it are unchanged |
| OcbVectors.TestEncrypt | src/tests/ocb-aes.cc:75-98 | passes exactly when the expected ciphertext equals the engine's output; a pass implies the expected ciphertext is one tag longer than the plaintext |
| OcbVectors.TestDecrypt | src/tests/ocb-aes.cc:100-130 | a valid vector passes exactly when decryption yields the expected plaintext; an invalid one passes exactly when decryption is rejected |
| OcbVectors.TamperIndex | src/tests/ocb-aes.cc:161 | the corrupted index `uint32 % len` is always inside the ciphertext |
| OcbVectors.TamperFlipsOneBit | src/tests/ocb-aes.cc:160-162 | the corrupted copy has the same length and keeps every other byte; in the chosen byte exactly bit `uint8 % 8` is inverted, so the copy differs from the original |
| OcbVectors.FlipOneBitOfByte | src/tests/ocb-aes.cc:162 | XOR with `1 << m` inverts bit `m` of a byte and keeps every other bit |
| OcbVectors.TamperTrial | src/tests/ocb-aes.cc:160-164 | one trial passes exactly when the engine rejects the one-bit-corrupted copy; the original buffers are not modified |
| OcbVectors.TestVector | src/tests/ocb-aes.cc:132-170 | passes exactly when encryption reproduces the ciphertext, decryption gives back the plaintext and all 64 corrupted copies are rejected |
| OcbVectors.PassingVectorRoundTrip | src/tests/ocb-aes.cc:151-155 | a passing vector's ciphertext is one tag longer than its plaintext, and decrypting the encryption gives the plaintext back |
| OcbVectors.TestVectorMacro | src/tests/ocb-aes.cc:172-173 | with the lengths `sizeof(literal) - 1`, the vector is checked against exactly the literal bytes, embedded NULs included |
| OcbIterative.RoundByteValue | src/tests/ocb-aes.cc:488 | the byte stored for round counter `i < 256` has value `i` |
| OcbIterative.RoundNoncesDistinct | src/tests/ocb-aes.cc:487-488 | round `i`'s nonce is 12 bytes whose last byte is `i`; two rounds share a nonce only if they are the same round; round 0's nonce is all zeros |
| OcbIterative.RoundOutputLength | src/tests/ocb-aes.cc:477-478 | round `i` contributes chunks of `i + 16`, `i + 16` and 16 bytes, `2*i + 3*TAG_LEN` in all |
| OcbIterative.ChainLength | src/tests/ocb-aes.cc:482-519 | after `n` rounds the write offset is `n*n + 47*n` |
| OcbIterative.AccumulatorExactlyFilled | src/tests/ocb-aes.cc:479 | the 128 rounds fill the 22,400-byte accumulator exactly: no gap, no overrun |
| OcbIterative.ChainPrefix | src/tests/ocb-aes.cc:480 | later rounds only append: what the first `m` rounds wrote is a prefix of what the first `n` rounds wrote |
| OcbIterative.RoundLayout | src/tests/ocb-aes.cc:482-519 | in the final accumulator, round `i`'s `2*i + 48` bytes sit from offset `i*i + 47*i` |
| OcbIterative.Append | src/tests/ocb-aes.cc:499-500 | the copy appends `n` bytes of `out` to the filled prefix, and the offset advances by `n` |
| OcbIterative.EncryptAppend | src/tests/ocb-aes.cc:494-500 | the first `n` bytes of the engine's output are appended to the filled prefix |
| OcbIterative.ZeroBuffer | src/tests/ocb-aes.cc:484-485 | a fresh buffer of `i` zero bytes |
| OcbIterative.SetRoundByte | src/tests/ocb-aes.cc:488 | a nonce whose first 11 bytes are zero becomes round `i`'s nonce |
| OcbIterative.RunRound | src/tests/ocb-aes.cc:483-518 | one round sets the nonce to round `i`'s nonce, advances the offset by `2*i + 48` and appends the round's three outputs |
| OcbIterative.FillAccumulator | src/tests/ocb-aes.cc:479-519 | after the loop the accumulator holds exactly the 128 rounds' outputs in order |
| OcbIterative.TestIterative | src/tests/ocb-aes.cc:466-539 | passes exactly when the tag over the filled accumulator, with the all-zero key and nonce and no plaintext, equals the published 16-byte constant |
| StringSearch.FindFirstNotOf | src/frontend/mosh.cc:406 | the first index at or after `pos` whose character is outside the set, or none when every such character is in it |
| StringSearch.FindLastNotOf | src/frontend/mosh.cc:411 | the last index whose character is outside the set, or none |
| StringSearch.FindLastOf | src/frontend/mosh.cc:412 | the last index whose character is in the set, or none |
| StringSearch.LastNotOfIsTrimEnd | src/frontend/mosh.cc:411 | the last non-blank index is the end of the string with its trailing blanks trimmed |
| StringSearch.SplitLines | src/frontend/mosh.cc:396-397 | the lines `getline` yields contain no newline |
| StringSearch.SplitLinesRoundTrip | src/frontend/mosh.cc:396-397 | joining the lines with newlines gives back the text, plus a final newline when it had none |
| MoshBootstrap.ParseOptions | src/frontend/mosh.cc:181-220 | the first unrecognised option gives the usage error; otherwise the result is the options applied in order to the defaults |
| MoshBootstrap.LastPredictWins | src/frontend/mosh.cc:199-216 | the last of `--predict`, `-a` and `-n` decides the prediction mode |
| MoshBootstrap.NoPredictOption | src/frontend/mosh.cc:161 | without any of them the command-line mode stays empty |
| MoshBootstrap.PredictCheck | src/frontend/mosh.cc:91-100 | accepts exactly "adaptive", "always" and "never"; any other mode is a fatal error that names the mode and its source |
| MoshBootstrap.ResolvePredictMode | src/frontend/mosh.cc:229-237 | a non-empty command-line mode wins, then a set environment value, then "adaptive"; the chosen one is always checked |
| MoshBootstrap.DecimalRoundTrip | src/frontend/mosh.cc:242-243 | reading back the decimal spelling of a number gives the number |
| MoshBootstrap.CheckPortRequest | src/frontend/mosh.cc:240-249 | an empty request keeps the port; a non-empty one is accepted exactly when it is all decimal digits with a value of at most 65535, and then it becomes the port |
| MoshBootstrap.EveryPortAccepted | src/frontend/mosh.cc:240-249 | every port number from 0 to 65535 is accepted in its decimal spelling |
| MoshBootstrap.DigitsAreDecimal | src/frontend/mosh.cc:241 | the searched digit set is exactly '0'..'9' |
| MoshBootstrap.KeyAlphabetSpelledOut | src/frontend/mosh.cc:86-87 | the key alphabet is the string spelled out in the source |
| MoshBootstrap.KeyValidCharsAreKeyChars | src/frontend/mosh.cc:86-87 | every character of the key alphabet is a letter, a digit, '/' or '+' |
| MoshBootstrap.WhitespaceIsNotKeyChar | src/frontend/mosh.cc:411-412 | no trimmed blank is a key character |
| MoshBootstrap.PortEnd | src/frontend/mosh.cc:406-409 | a port terminator is found exactly when a non-digit follows the prefix; the port is then the maximal digit run at offset 13, possibly empty |
| MoshBootstrap.KeyField | src/frontend/mosh.cc:411-415 | the key test keeps the old key unless the remainder, trimmed of trailing " \t\n\r", is 22 characters ending in a key character; the key is then those 22 characters |
| MoshBootstrap.ConnectFieldsAsWritten | src/frontend/mosh.cc:405-415 | as written: with a terminator, the port is its digit run and the key is read after the terminator; without one, the port is kept and the key is read from the whole line |
| MoshBootstrap.ConnectFields | src/frontend/mosh.cc:405-415 | as intended: the same when there is a terminator; without one, port and key are both kept |
| MoshBootstrap.WholeLineTakenAsKey | src/frontend/mosh.cc:410 | on "MOSH CONNECT 123456789" the as-written parser takes the whole line as the key, and the intended one keeps the key |
| MoshBootstrap.KeyOnlyAfterPort | src/frontend/mosh.cc:410-415 | with the intended parser a new key only comes from the trimmed, 22-character text after the port terminator |
| MoshBootstrap.FirstConnectLine | src/frontend/mosh.cc:397-405 | the loop stops at the first line that starts with "MOSH CONNECT ", or reads every line when none does |
| MoshBootstrap.FirstConnectIsUnique | src/frontend/mosh.cc:397-416 | a position with no connect line before it, and a connect line or the end at it, is where the loop stops |
| MoshBootstrap.ScanServerOutput | src/frontend/mosh.cc:395-420 | lines before the first `MOSH CONNECT` line are echoed unchanged; that line, if any, sets port and key through the as-written parser, so a line with only digits after the prefix is read whole as a key; otherwise both are kept |
| MoshBootstrap.Bootstrap | src/frontend/mosh.cc:181-433 | each `die` in order with its message: an unrecognised option or `--help` gives the usage text, `--version` the version text, then the mode check's and the port check's errors; past them, the client starts exactly when the final key and port are both non-empty, and otherwise startup is refused; the launch has the fixed local address, the mode chosen by precedence, and either the command-line key with the requested port or the port and key the as-written parser takes from the first `MOSH CONNECT` line; the lines before that line are echoed, none when a key was given |

## Left out

- The AES block cipher, the OCB offsets and tag, and the key schedule (`ae.h`) are not part of this model. The engine is a pair of arbitrary functions with a length contract. The known-answer vector bytes and the iterative tag are therefore constants that cannot be checked here.
- `AE_INVALID` is taken to be -1, because `ae.h` is not part of this model. `ae_init` and `ae_clear` are assumed to succeed, as the harness asserts.
- The vector literals of `test_all_vectors` (src/tests/ocb-aes.cc:175-461) are not reproduced. `TestVectorMacro` covers how any one of them is passed.
- The PRNG is not modelled. Each tamper trial's two draws are arbitrary inputs, and the order in which C++ evaluates them is not fixed.
- `verbose`, `hexdump` and all `printf` output are left out, except the echoed lines of the `MOSH CONNECT` loop. They are diagnostics.
- Memory alignment, `ae_ctx_sizeof`, allocation failure and `delete` are left out. They do not affect the bytes compared.
- OcbIterative.RoundByte: `nonce[11] = i` is modelled as the byte counted up from zero, which `RoundByteValue` proves equals `i`. A direct cast would do the same for `i < 256`.
- OcbVectors.TestDecrypt: requires a ciphertext of at least `TAG_LEN` bytes. A shorter one would wrap the `size_t` subtraction and make the allocation fail. The harness only calls it after `test_encrypt` has shown the length.
- The libssh2 session, sockets, `waitsocket`, the channel read loop and `cat` (src/frontend/mosh.cc:102-152, 257-389) are network I/O. The collected server output is an input. `result.append(buffer)` appends a buffer that is not NUL-terminated; that is an I/O concern and is not modelled.
- `getopt_long` internals are left out: options arrive decoded. `getenv`/`unsetenv` are left out: the environment value is an input.
- MoshBootstrap.CheckPortRequest: `atoi` overflow on very long digit strings is not modelled. The value is an unbounded natural compared with 65535.
- `predict_check`'s message names `MOSH_PREDICTION_DISPLAY` while the value comes from `MOSH_PREDICTION_DELAY`. Only the error itself is modelled, not its text.
- The remote-address gate (src/frontend/mosh.cc:426-429) never fires, because the address is the constant "127.0.0.1". It is an assertion in `Bootstrap`.
- The corrected parser `ConnectFields` is not used by `ScanServerOutput` or `Bootstrap`, which follow the source as written. Its property is proved on its own, in `KeyOnlyAfterPort`.
- `set_native_locale`, `iOSClient` and its exception handling (src/frontend/mosh.cc:437-475) are the runtime client. They are not part of this model.

## Findings

| source | as written | input that shows it | evidently intended | confidence | as-written member | corrected member |
|---|---|---|---|---|---|---|
| src/frontend/mosh.cc:410 | `line.substr( port_end + 1 )` when no non-digit follows the port: `port_end` is npos, `port_end + 1` wraps to 0, and the key is looked for in the whole line | `-p 60001` and the server line "MOSH CONNECT 123456789" (22 characters, last one a digit): the key becomes "MOSH CONNECT 123456789" and the client starts with it | a line with no separator after the port carries no key, so the key stays unset and startup is refused | not executed | MoshBootstrap.ConnectFieldsAsWritten | MoshBootstrap.ConnectFields |
