# Verified model of the streaming microphone's WireGuard stack and socket hand-over

A Dafny model of the hard core of the firmware, with proofs: the limb arithmetic of
X25519 and Poly1305, the streaming primitives and the AEAD built from them, the WireGuard
handshake and session slots, and the hand-over of the RTSP socket between the two cores.
`dafny verify dfyconfig.toml` checks everything.

Words are those of the ESP32: `u8`, `u16`, `u32` and `u64` are bounded integers, so that
assigning to one proves that the value fits; where the C code wraps on purpose the model
writes the remainder. Limb vectors, buffers and states that the code overwrites are
arrays or class fields here, with the same aliasing; read-only inputs are sequences.

| files | what they model |
|---|---|
| `Bits.dfy`, `Bytes.dfy` | words, bit operators, the load and store macros |
| `Limbs.dfy`, `X25519.dfy`, `X25519Rfc.dfy` | GF(2^255-19) in eight limbs, the ladder, the inversion chain; agreement with section 5 of RFC 7748 |
| `Sets.dfy`, `Primes.dfy`, `Certificates.dfy` | orders and Pocklington's test; the tables of powers behind Fermat's theorem for 2^255-19 |
| `Poly1305.dfy` | five 26-bit limbs, buffering, the tag of section 2.5 of RFC 7539 |
| `ChaCha20.dfy`, `Aead.dfy` | keystream, the AEAD of section 2.8 of RFC 7539 and its XChaCha variant |
| `Blake2s.dfy`, `Kdf.dfy` | the hash of RFC 7693, HMAC and the key derivation, all in place |
| `Replay.dfy`, `Base64.dfy`, `Tai64n.dfy` | the replay window, base64, the handshake timestamp |
| `Noise.dfy`, `Sessions.dfy`, `Peers.dfy`, `Devices.dfy`, `Network.dfy` | handshake messages, keypair slots, send and receive paths, timer, two devices together, whole runs |
| `Handoff.dfy` | both cores as an interleaving of single accesses to the volatile flags |

That the inversion chain of X25519 inverts rests on Fermat's theorem for 2^255-19. It is
proved, not assumed: `X25519Rfc.Fermat` from `Certificates.TwoGenerates`, which shows that
2 has order 2^255-20 by Pocklington's test over tables of powers.

What is left abstract appears as a parameter, so the theorems hold for every choice of it:
the twenty ChaCha rounds, the BLAKE2s compression function, and, in the handshake, DH.
DH is only assumed to commute where the two devices are compared, and to be nonzero
where the code demands it. Clock readings (one per handler call), random bytes,
allocation and send results are parameters too. A keypair carries the number of the
session that made it and a peer carries the history of encryptions and authenticated
packets and of payloads handed on; nothing the model sends or decides depends on them.

The main results are `X25519.ScalarMultiply` with `X25519Rfc.WireguardX25519`,
`Poly1305.AuthenticateChunks`, `AeadSpec.OpenSeal` with `Aead.Encrypt` and
`Aead.Decrypt`, `Blake2s.HashChunks`, `Kdf.HmacInto`, `Replay.CheckAll`,
`Replay.StepIsExact`, `Network.Exchange`, `Network.Connect`, `Network.Run` with
`Network.HandedOnTwice`, and `Handoff.NeverShared` with `Handoff.QuietAfterStop` and
`Handoff.ConfirmedExactly`.

## Model

| member | source | states |
|---|---|---|
| `Bytes.U8To32IsLe` | lib/WireGuard-ESP32/src/crypto.h:35-39 | the or of shifted bytes is their little-endian value and fits 32 bits |
| `Bytes.U8To64IsLe` | lib/WireGuard-ESP32/src/crypto.h:41-49 | the same for eight bytes and 64 bits |
| `Bytes.U32To8` | lib/WireGuard-ESP32/src/crypto.h:57-63 | exactly four bytes change, to the little-endian form of the word |
| `Bytes.U64To8` | lib/WireGuard-ESP32/src/crypto.h:73-83 | exactly eight bytes change, to the little-endian form |
| `Bits.AlignDown16` | lib/WireGuard-ESP32/src/crypto/refc/poly1305-donna.c:29 | masking off the low four bits of any 32-bit length rounds it down to whole blocks |
| `Aead.CryptoEqual` | lib/WireGuard-ESP32/src/crypto.c:14-23 | true if and only if the two byte strings are equal, all bytes having been compared |
| `Aead.CryptoZero` | lib/WireGuard-ESP32/src/crypto.c:7-12 | every byte of the buffer is zero |
| `Field25519.Umaal` | lib/WireGuard-ESP32/src/crypto/refc/x25519.c:58-64 | word and carry hold the exact value of mand * mier + acc + carry, which never exceeds 64 bits |
| `Field25519.Adc` | lib/WireGuard-ESP32/src/crypto/refc/x25519.c:67-71 | word and carry hold the exact sum |
| `Field25519.Adc0` | lib/WireGuard-ESP32/src/crypto/refc/x25519.c:73-77 | word and carry hold the exact sum |
| `Field25519.Propagate` | lib/WireGuard-ESP32/src/crypto/refc/x25519.c:84-93 | for a small carry the value stays congruent, falls below 2^255 + 2^32, and is v mod 2^255 + 19 * (v div 2^255); no word wraps |
| `Field25519.Add` | lib/WireGuard-ESP32/src/crypto/refc/x25519.c:95-102 | sum modulo 2^255 - 19 of any two 256-bit operands, result below 2^255 + 2^32, also when the output is an operand |
| `Field25519.Sub` | lib/WireGuard-ESP32/src/crypto/refc/x25519.c:104-112 | difference modulo 2^255 - 19 when the subtrahend is below 2^256 - 38, result below 2^255 + 2^32 |
| `Field25519.Product` | lib/WireGuard-ESP32/src/crypto/refc/x25519.c:132-145 | the 512-bit schoolbook product, for any number of limbs up to eight |
| `Field25519.Mul` | lib/WireGuard-ESP32/src/crypto/refc/x25519.c:132-153 | product modulo 2^255 - 19 of any operands with up to eight limbs, result below 2^255 + 2^32, aliasing allowed |
| `Field25519.Canon` | lib/WireGuard-ESP32/src/crypto/refc/x25519.c:167-201 | the least residue for inputs below 2^255 + 2^32, and all ones exactly when it is zero |
| `X25519Ladder.CondSwap` | lib/WireGuard-ESP32/src/crypto/refc/x25519.c:159-165 | both point pairs are exchanged when the mask is all ones and untouched when it is zero |
| `X25519Ladder.LadderPart1` | lib/WireGuard-ESP32/src/crypto/refc/x25519.c:205-220 | the five slots hold the intermediate values of the step formulas of RFC 7748 for the pair they held, without overflow |
| `X25519Ladder.LadderPart2` | lib/WireGuard-ESP32/src/crypto/refc/x25519.c:221-229 | together with part 1 the slots hold the next pair of section 5 of RFC 7748 |
| `X25519Ladder.BitOfLe` | lib/WireGuard-ESP32/src/crypto/refc/x25519.c:245-254 | the bit read from byte i/8 is bit i of the little-endian scalar |
| `X25519Ladder.SwapIn` | lib/WireGuard-ESP32/src/crypto/refc/x25519.c:115-121 | the limbs hold the little-endian value of the bytes |
| `X25519Ladder.Core` | lib/WireGuard-ESP32/src/crypto/refc/x25519.c:231-262 | for every scalar and base the pair in the work area is that of the 256-step ladder on the (clamped) scalar and the base reduced mod p, top bit not masked |
| `X25519.RowExponents` | lib/WireGuard-ESP32/src/crypto/refc/x25519.c:274-288 | each of the 13 table rows maps known exponents to the next ones and reads only slots that hold a power |
| `X25519.SquareRow` | lib/WireGuard-ESP32/src/crypto/refc/x25519.c:292-295 | n squarings from the previous slot into the target, which may be the same slot |
| `X25519.RaiseToPMinus2` | lib/WireGuard-ESP32/src/crypto/refc/x25519.c:289-297 | slot 3 ends with z2 to the power 2^255 - 21, and slots 0 and 1 are as before |
| `X25519.ScalarMultiply` | lib/WireGuard-ESP32/src/crypto/refc/x25519.c:264-321 | the output is the least residue of x2 * z2^(p-2) in little-endian bytes; -1 exactly when clamping was asked for and that residue is 0 |
| `X25519.SwapOut` | lib/WireGuard-ESP32/src/crypto/refc/x25519.c:123-130 | the 32 bytes are the little-endian form of the value |
| `X25519Rfc.InverseOf` | lib/WireGuard-ESP32/src/crypto/refc/x25519.c:271-297 | z^(p-2), which the chain computes, is the inverse of every nonzero z, so x25519 returns x2 / z2 |
| `X25519Rfc.StepScales` | lib/WireGuard-ESP32/src/crypto/refc/x25519.c:205-229 | the ladder step is homogeneous: scaling the two points scales the results by fourth powers and squared products |
| `X25519Rfc.LadderScales` | lib/WireGuard-ESP32/src/crypto/refc/x25519.c:244-262 | every step of the 256-step ladder is the step before of the 255-step one, up to nonzero factors |
| `X25519Rfc.SameAsRfc7748` | lib/WireGuard-ESP32/src/crypto/refc/x25519.c:231-262 | with bit 255 of the scalar clear, the code's ladder and the 255-step ladder of RFC 7748 have the same result for every u, 0 included |
| `X25519Rfc.ClampedTopBit` | lib/WireGuard-ESP32/src/crypto/refc/x25519.c:249-252 | clamping always clears bit 255, so every clamped scalar is covered |
| `X25519Rfc.WireguardX25519` | lib/WireGuard-ESP32/src/crypto.h:18 | the clamped call everything uses is the X25519 function of section 5 of RFC 7748: on every base whose top bit is clear, and on every other base as on its value reduced modulo p; -1 exactly when the result is all zero |
| `Poly1305Limbs.LoadLimbs` | lib/WireGuard-ESP32/src/crypto/refc/poly1305-donna-32.h:101-105 | the five overlapping loads split a 16-byte block exactly |
| `Poly1305Limbs.AddBlock` | lib/WireGuard-ESP32/src/crypto/refc/poly1305-donna-32.h:100-105 | the block and its high bit are added exactly; no 32-bit sum wraps |
| `Poly1305Limbs.ColumnBounds` | lib/WireGuard-ESP32/src/crypto/refc/poly1305-donna-32.h:107-112 | for clamped r and any carried h no 64-bit column sum wraps |
| `Poly1305Limbs.FoldProduct` | lib/WireGuard-ESP32/src/crypto/refc/poly1305-donna-32.h:88-112 | the five columns with 5 * r differ from h * r by a multiple of 2^130 - 5, which is named |
| `Poly1305Limbs.Multiply` | lib/WireGuard-ESP32/src/crypto/refc/poly1305-donna-32.h:107-112 | h * r modulo 2^130 - 5, in columns small enough for the carries |
| `Poly1305Limbs.PartialReduce` | lib/WireGuard-ESP32/src/crypto/refc/poly1305-donna-32.h:114-121 | same residue, and h0, h2, h3, h4 below 2^26 and h1 below 2^26 + 64 again; every carry and c * 5 fits 32 bits |
| `Poly1305Limbs.ClampLimbs` | lib/WireGuard-ESP32/src/crypto/refc/poly1305-donna-32.h:49-54 | the five masks are the clamp of RFC 7539 on the little-endian r |
| `Poly1305Limbs.FullCarry` | lib/WireGuard-ESP32/src/crypto/refc/poly1305-donna-32.h:152-164 | after the single pass every limb is below 2^26, same residue and value below 2^130 |
| `Poly1305Limbs.MinusP` | lib/WireGuard-ESP32/src/crypto/refc/poly1305-donna-32.h:166-171 | the sign bit of the wrapped top limb tells exactly whether h is below p; otherwise the limbs are h - p |
| `Poly1305Limbs.Select` | lib/WireGuard-ESP32/src/crypto/refc/poly1305-donna-32.h:173-185 | the masked choice is the unique representative below p |
| `Poly1305Limbs.Repack` | lib/WireGuard-ESP32/src/crypto/refc/poly1305-donna-32.h:187-191 | four 32-bit words equal to h mod 2^128 |
| `Poly1305Limbs.AddPad` | lib/WireGuard-ESP32/src/crypto/refc/poly1305-donna-32.h:193-197 | sum with the pad, exact modulo 2^128 |
| `Poly1305Spec.AccumulateConcat` | lib/WireGuard-ESP32/src/crypto/refc/poly1305-donna.c:27-33 | absorbing whole blocks first and the rest later is absorbing everything |
| `Poly1305.OneBlock` | lib/WireGuard-ESP32/src/crypto/refc/poly1305-donna-32.h:99-125 | one block maps the residue of h to (h + block + high bit) * r |
| `Poly1305.Blocks` | lib/WireGuard-ESP32/src/crypto/refc/poly1305-donna-32.h:73-132 | folding over any number of whole blocks, with the loop bounds kept |
| `Poly1305.PaddedBlock` | lib/WireGuard-ESP32/src/crypto/refc/poly1305-donna-32.h:142-150 | the short last block with a one byte and zeros has the value RFC 7539 gives it |
| `Poly1305.Context.constructor` | lib/WireGuard-ESP32/src/crypto/refc/poly1305-donna-32.h:45-71 | the context stands for the empty message under the key |
| `Poly1305.Context.Update` | lib/WireGuard-ESP32/src/crypto/refc/poly1305-donna.c:6-41 | the message the context stands for grows by exactly the data, empty or not, whatever was buffered |
| `Poly1305.Context.Finish` | lib/WireGuard-ESP32/src/crypto/refc/poly1305-donna-32.h:134-219 | the 16 bytes are the tag of section 2.5.1 of RFC 7539 for everything given to Update, nothing else of the output changes, and r, h and pad are zero afterwards |
| `Poly1305.AuthenticateChunks` | lib/WireGuard-ESP32/src/crypto/refc/poly1305-donna.c:6-41 | for every key and every cutting of a message into updates the tag is that of the concatenation |
| `ChaCha20Spec.MaskTwice` | lib/WireGuard-ESP32/src/crypto/refc/chacha20.c:117-140 | masking with one keystream twice gives the data back |
| `ChaCha20Spec.AdvanceState` | lib/WireGuard-ESP32/src/crypto/refc/chacha20.c:125 | advancing the counter changes word 12 only, modulo 2^32 |
| `ChaCha20.Context.constructor` | lib/WireGuard-ESP32/src/crypto/refc/chacha20.c:149-166 | constants, key words, counter zero and the 64-bit nonce stand where section 2.3 of RFC 7539 puts them |
| `ChaCha20.Context.NextBlock` | lib/WireGuard-ESP32/src/crypto/refc/chacha20.c:102-115 | 64 bytes: round output plus state, word by word, little-endian |
| `ChaCha20.Context.Crypt` | lib/WireGuard-ESP32/src/crypto/refc/chacha20.c:117-140 | output byte i is input byte i masked with byte i mod 64 of block i div 64 after the present counter, also in place; the counter advances once per block |
| `ChaCha20.HChaCha20` | lib/WireGuard-ESP32/src/crypto/refc/chacha20.c:172-202 | the first and last rows of the state after the rounds |
| `AeadSpec.OpenSeal` | lib/WireGuard-ESP32/src/crypto/refc/chacha20poly1305.c:67-162 | opening yields p if and only if the input is the sealing of p: decryption undoes encryption and accepts nothing else |
| `AeadSpec.PayloadBlock` | lib/WireGuard-ESP32/src/crypto/refc/chacha20poly1305.c:67-77 | payload byte i is masked by keystream block 1 + i / 64, because block 0 made the key |
| `Aead.GeneratePoly1305Key` | lib/WireGuard-ESP32/src/crypto/refc/chacha20poly1305.c:49-64 | the authenticator is keyed with half of block 0 and the cipher is left at block 1 |
| `Aead.Authenticate` | lib/WireGuard-ESP32/src/crypto/refc/chacha20poly1305.c:79-95 | the six updates cover data, padding, ciphertext, padding and both lengths, as section 2.8 of RFC 7539 lays them out |
| `Aead.Encrypt` | lib/WireGuard-ESP32/src/crypto/refc/chacha20poly1305.c:67-105 | the output is ciphertext and tag of section 2.8, also when it overwrites its input; nothing else changes |
| `Aead.Decrypt` | lib/WireGuard-ESP32/src/crypto/refc/chacha20poly1305.c:108-162 | true if and only if the tag matches; the plaintext is written then, and nothing at all otherwise |
| `Aead.XEncrypt` | lib/WireGuard-ESP32/src/crypto/refc/chacha20poly1305.c:169-179 | encryption under the derived subkey with the last eight nonce bytes |
| `Aead.XDecrypt` | lib/WireGuard-ESP32/src/crypto/refc/chacha20poly1305.c:181-193 | the inverse, with the same all-or-nothing write |
| `Aead.SealThenOpen` | lib/WireGuard-ESP32/src/crypto/refc/chacha20poly1305.c:67-162 | sealing a buffer in place and opening it in place restores every plaintext |
| `Blake2s.AddToCounter` | lib/WireGuard-ESP32/src/crypto/refc/blake2s.c:113-115 | the carry pair is the byte count modulo 2^64 |
| `Blake2s.StreamingCompress` | lib/WireGuard-ESP32/src/crypto/refc/blake2s.c:111-119 | when a byte arrives at a full buffer, exactly that buffer is compressed, and the state is that of the longer input |
| `Blake2s.StreamingTotal` | lib/WireGuard-ESP32/src/crypto/refc/blake2s.c:129-135 | the buffered rest, zero-filled, is the last block and the counter the total length |
| `Blake2s.Context.Init` | lib/WireGuard-ESP32/src/crypto/refc/blake2s.c:78-103 | -1 and no change for illegal lengths, otherwise a context that stands for the key block, or nothing |
| `Blake2s.Context.UpdateByte` | lib/WireGuard-ESP32/src/crypto/refc/blake2s.c:111-120 | the input grows by one byte; below a full buffer nothing else moves |
| `Blake2s.Context.Update` | lib/WireGuard-ESP32/src/crypto/refc/blake2s.c:106-121 | the input the context stands for grows by exactly the data |
| `Blake2s.Context.Final` | lib/WireGuard-ESP32/src/crypto/refc/blake2s.c:125-142 | the digest bytes are those of the block fold of section 3.3 of RFC 7693 over all input |
| `Blake2s.HashChunks` | lib/WireGuard-ESP32/src/crypto/refc/blake2s.c:145-156 | for every key length, digest length and cutting into updates the digest is that of section 3.3 over the concatenation; -1 exactly for illegal lengths |
| `Kdf.MixHash` | lib/WireGuard-ESP32/src/wireguard.c:204-210 | the new hash is that of old hash and data, though it is written over the old one |
| `Kdf.KeyedMac` | lib/WireGuard-ESP32/src/wireguard.c:192-194 | the keyed 16-byte digest of the message |
| `Kdf.HmacInto` | lib/WireGuard-ESP32/src/wireguard.c:212-257 | the HMAC of section 2 of RFC 2104 over the text as it was, even when the digest lies over the text; keys longer than a block are hashed |
| `Kdf.Kdf1` | lib/WireGuard-ESP32/src/wireguard.c:259-273 | the first chained output, also when it replaces the chaining key |
| `Kdf.Kdf2` | lib/WireGuard-ESP32/src/wireguard.c:275-294 | both chained outputs of the chaining key as it was before the call |
| `Kdf.Kdf3` | lib/WireGuard-ESP32/src/wireguard.c:296-320 | all three chained outputs of the chaining key as it was before the call |
| `Replay.CheckReplay` | lib/WireGuard-ESP32/src/wireguard.c:322-364 | verdict and window of the step function, for windows of 1 to 32 numbers: a number ahead is accepted and becomes the counter, one refused changes nothing, and one accepted is refused if it comes again next |
| `Replay.StepIsExact` | lib/WireGuard-ESP32/src/wireguard.c:322-364 | for every state of the window and every 64-bit number: accepted if and only if nonzero, new and less than W behind the greatest, with the window still recording exactly what was accepted, holds if and only if the number is zero, within 2^32 of the counter, or its wrapped distance is outside the window, shifts no set bit behind the new number (ahead), or points to a set bit (behind) |
| `Replay.FarAhead` | lib/WireGuard-ESP32/src/wireguard.c:325-342 | a jump of 2^32 or more is always rightly accepted; the window goes on tracking exactly under that guard |
| `Replay.FarBehind` | lib/WireGuard-ESP32/src/wireguard.c:343-358 | 2^32 or more behind: never acceptable, yet accepted exactly when the wrapped distance points to a number of the window that was not accepted |
| `Replay.CheckAll` | lib/WireGuard-ESP32/src/wireguard.c:322-364 | any sequence of numbers less than 2^32 apart on one keypair: accepted exactly when nonzero, new and less than W behind the greatest |
| `Replay.FarJumpMisreads` | lib/WireGuard-ESP32/src/wireguard.c:325-342 | an input for the first failure: after a jump of 2^32 + 1 a number that never came is refused |
| `Replay.FarBehindReplays` | lib/WireGuard-ESP32/src/wireguard.c:343-358 | an input for the second: number 9 is accepted again after the counter has gone on by two far jumps |
| `Base64.EncodeInto` | lib/WireGuard-ESP32/src/wireguard.c:1095-1129 | succeeds exactly when the buffer is longer than the text, which is the encoding of section 4 of RFC 4648 with a terminator; otherwise nothing is written |
| `Base64.DecodeInto` | lib/WireGuard-ESP32/src/wireguard.c:1022-1093 | succeeds exactly for well-formed text that passes the size check, with exactly its bytes; beyond them nothing is written; one byte more than the stated size is stored if and only if a group with three '=' is reached when the groups before have filled that size, and only then need the buffer be longer |
| `Base64.SpillsFromNothing` | lib/WireGuard-ESP32/src/wireguard.c:1070-1083 | the shortest such text, 'A===': one byte stored where none was allowed for |
| `Base64.EncodedNeverSpills` | lib/WireGuard-ESP32/src/wireguard.c:1095-1129 | text that encodes bytes never does this |
| `Base64Spec.DecodeEncode` | lib/WireGuard-ESP32/src/wireguard.c:1022-1129 | every byte string survives encoding and decoding |
| `Base64.EncodedIsAccepted` | lib/WireGuard-ESP32/src/wireguard.c:1070-1075 | encoded text is accepted exactly when its bytes fit |
| `Base64.KeyStringIs32Bytes` | src/WebUI.cpp:322 | 43 characters of the alphabet and one '=' decode to exactly 32 bytes, whenever 32 fit |
| `Tai64n.Now` | lib/WireGuard-ESP32/src/wireguard-platform.c:46-63 | the twelve bytes are the big-endian seconds and the scaled milliseconds of the clock |
| `Tai64n.StampOrder` | lib/WireGuard-ESP32/src/wireguard-platform.c:46-63 | comparing two stamps as bytes compares the clock readings, to the millisecond |
| `Noise.OpensWhatWasSealed` | lib/WireGuard-ESP32/src/wireguard.c:603-615 | a field sealed with a key and transcript hash opens with them |
| `HandshakeSpec.InitiationAgrees` | lib/WireGuard-ESP32/src/wireguard.c:560-662 | with commuting DH the responder reads the initiator's stamp and reaches the same hash and chaining key |
| `HandshakeSpec.ResponseAgrees` | lib/WireGuard-ESP32/src/wireguard.c:664-749 | from equal chaining keys and hashes both sides reach the same chaining key |
| `Devices.Device.constructor` | lib/WireGuard-ESP32/src/wireguard.c:960-1011 | valid exactly when the private key and its public key are nonzero, with keys, precomputed DH and label keys of the configuration; otherwise the private key is wiped and the peer invalid; no session exists |
| `Devices.Device.CreateInitiation` | lib/WireGuard-ESP32/src/wireguard.c:772-859 | succeeds exactly when no DH is zero; fields and state are those of section 5.4.2 of the whitepaper, with an unused index; a failure keeps role and indices |
| `Devices.Device.ProcessInitiation` | lib/WireGuard-ESP32/src/wireguard.c:560-662 | accepted exactly when both fields open, the peer is the known one, the stamp is newer and the rate test passes; otherwise nothing changes |
| `Devices.RateLimitIs` | lib/WireGuard-ESP32/src/wireguard.c:623 | the rate test refuses exactly for equal readings and in the last 500 ms before the 32-bit clock has gone around |
| `Devices.RateLimitHolds` | lib/WireGuard-ESP32/src/wireguard.c:623 | it is the limit to one initiation in 500 ms if and only if the readings are equal or between 500 ms and 2^32 - 500 ms apart |
| `Devices.NotHeldBack` | lib/WireGuard-ESP32/src/wireguard.c:623 | at every time, an initiation one millisecond after the last is fresh exactly when its stamp is newer |
| `Devices.Device.CreateResponse` | lib/WireGuard-ESP32/src/wireguard.c:861-948 | succeeds exactly for a responder's handshake with nonzero DH; fields and state are those of section 5.4.3, with an unused index |
| `Devices.Device.ProcessResponse` | lib/WireGuard-ESP32/src/wireguard.c:664-749 | accepted exactly when the handshake is an outstanding initiation, no DH is zero and the empty field opens; otherwise the handshake is unchanged |
| `Devices.Device.SendHandshakeResponse` | lib/WireGuard-ESP32/src/wireguardif.c:409-429 | the new keypair waits in the next slot with the responder's key order whether or not the packet goes out, the current one stays, the previous one is destroyed; when a DH is zero the slots, role and indices stay |
| `Devices.Device.ReceiveInitiation` | lib/WireGuard-ESP32/src/wireguardif.c:563-578 | nothing happens for a wrong mac1 or a refused initiation; otherwise stamp and time are recorded, and a keypair is made and the answer sent, or, when a DH of the answer is zero, the slots stay and only the handshake has changed |
| `Devices.Device.ReceiveResponse` | lib/WireGuard-ESP32/src/wireguardif.c:216-232 | a response to the outstanding index makes a current keypair and one empty packet with counter 0, the keypair that waited, or else the current one, becomes the previous one, and no other stays; anything else changes nothing |
| `Devices.Device.ReceiveTransport` | lib/WireGuard-ESP32/src/wireguardif.c:609-618 | a packet is processed on the one slot that holds its index, and ignored when none does |
| `Devices.Device.StartHandshake` | lib/WireGuard-ESP32/src/wireguardif.c:628-645 | the packet carries the index the handshake waits under; rekey flag and time change exactly when it goes out |
| `Devices.Device.ExpireKeys` | lib/WireGuard-ESP32/src/wireguardif.c:864-878 | the current keypair survives exactly when it may still encrypt, all else unless the current one is past three lifetimes, which takes every keypair and the handshake |
| `Devices.SweptIsUsable` | lib/WireGuard-ESP32/src/wireguardif.c:832-849 | the same of the sweep as a function |
| `Devices.Device.Tick` | lib/WireGuard-ESP32/src/wireguardif.c:851-896 | a keepalive goes out exactly when due and possible after the sweep, an initiation exactly when wanted, old enough and possible after that; slots, flag and time at the end are given |
| `Devices.Device.Disconnect` | lib/WireGuard-ESP32/src/wireguardif.c:686-699 | no slot stays valid |
| `Devices.RichYields` | lib/WireGuard-ESP32/src/wireguard.c:377-402 | among seven different draws one is usable in any state |
| `Sessions.PutKeeps` | lib/WireGuard-ESP32/src/wireguard.c:457-460 | clearing a slot, or advancing its counter and times, keeps the invariant |
| `Sessions.EncryptKeeps` | lib/WireGuard-ESP32/src/wireguard.c:1013-1016 | encrypting below the limit on a slot that may send keeps the invariant, so the (session, counter) pair is new |
| `Sessions.CheckKeeps` | lib/WireGuard-ESP32/src/wireguard.c:322-364 | on every slot that keeps its keypair and whenever the step is exact: a number is handed on exactly when it is nonzero, new to that window and less than four behind its greatest; the invariant is kept, and numbers less than 2^32 apart only ever make exact steps |
| `Sessions.HandOnFirstKeeps` | lib/WireGuard-ESP32/src/wireguardif.c:303-320 | the packet that promotes a keypair is the first its session hands on, and the invariant is kept though no window records it |
| `Sessions.PromotedHandsOnAgain` | lib/WireGuard-ESP32/src/wireguardif.c:303-320 | in every state: a nonzero number handed on by a promoting packet is handed on again when it comes once more |
| `Sessions.RepeatsAreRare` | lib/WireGuard-ESP32/src/wireguardif.c:303-320 | while all steps are exact a number of a session is handed on again only after a promoting packet brought it first, and never a third time |
| `Sessions.HandedOnAgain` | lib/WireGuard-ESP32/src/wireguardif.c:303-320 | in every such state, a number handed on before is handed on again if and only if only the promoting packet brought it and no number four or more ahead of it has been handed on since |
| `Sessions.ConfirmKeeps` | lib/WireGuard-ESP32/src/wireguardif.c:301-303 | recording an authenticated packet keeps the invariant |
| `Sessions.PromoteKeeps` | lib/WireGuard-ESP32/src/wireguard.c:462-469 | making the next keypair current leaves each session in at most one valid slot |
| `Sessions.StartSessionKeeps` | lib/WireGuard-ESP32/src/wireguard.c:471-525 | a new keypair that takes over the handshake's index keeps the invariant in every case of slots |
| `Sessions.SessionsLeft` | lib/WireGuard-ESP32/src/wireguard.c:471-484 | which sessions a new keypair leaves: an initiator keeps the one that waited or else the current one, a responder the current one; exactly the others are gone from every slot |
| `Sessions.HandshakeKeeps` | lib/WireGuard-ESP32/src/wireguard.c:829-833 | a handshake may change while its index stays, vanishes, or is one no slot has |
| `Sessions.AtMostOneHolds` | lib/WireGuard-ESP32/src/wireguard.c:366-375 | an index names at most one valid slot |
| `Sessions.OneSlotPerSession` | lib/WireGuard-ESP32/src/wireguard.c:462-484 | a session is in at most one valid slot |
| `Sessions.SlotsAvoidHandshake` | lib/WireGuard-ESP32/src/wireguard.c:377-402 | a valid slot never answers to zero or to the handshake's index |
| `Peers.Peer.constructor` | lib/WireGuard-ESP32/src/wireguard.c:960-992 | a fresh peer has no keypair, no handshake and no history; it is valid exactly when the device is and the static DH is nonzero, and what the failing branches do not set is zero |
| `Peers.Peer.KeypairForIndex` | lib/WireGuard-ESP32/src/wireguard.c:366-375 | finds a valid slot with the index, or there is none |
| `Peers.Peer.LookupByReceiver` | lib/WireGuard-ESP32/src/wireguard.c:128-145 | succeeds exactly when the peer is valid and some valid slot has the index |
| `Peers.Peer.GenerateUniqueIndex` | lib/WireGuard-ESP32/src/wireguard.c:377-402 | never 0, never 0xFFFFFFFF, never an index of a slot or of the handshake |
| `Peers.Peer.KeypairUpdate` | lib/WireGuard-ESP32/src/wireguard.c:462-469 | a packet on the next keypair promotes it, any other changes nothing |
| `Peers.Peer.AddNewKeypair` | lib/WireGuard-ESP32/src/wireguard.c:471-484 | an initiator's keypair becomes current, with the one that waited or else the current one as previous and none waiting; a responder's waits, the current one stays and the previous one is destroyed |
| `Peers.Peer.StartSession` | lib/WireGuard-ESP32/src/wireguard.c:486-525 | a keypair with the role's key order, the handshake's indices and counter 0; the handshake is wiped; the invariant holds |
| `Peers.Peer.EncryptPacket` | lib/WireGuard-ESP32/src/wireguard.c:1013-1016 | the packet is sealed with the slot's key and counter, the pair is logged and the counter used up |
| `Peers.Peer.OutputToPeer` | lib/WireGuard-ESP32/src/wireguardif.c:98-194 | exactly when a keypair is usable and memory there: the padded packet sealed on the current keypair, or the previous one while a responder has not heard; an exhausted or old keypair is destroyed and nothing is sent; the error code, time stamps and rekey flag in every case |
| `Peers.Peer.ConsultWindow` | lib/WireGuard-ESP32/src/wireguardif.c:316-320 | a keypair that stayed in its slot hands on exactly the acceptable numbers of its session; the slot a promotion emptied hands on every number but zero |
| `Peers.Peer.AcceptPacket` | lib/WireGuard-ESP32/src/wireguardif.c:301-360 | reception, confirmation, promotion and replay check in the code's order, the window being that of the same slot after the promotion |
| `Peers.Peer.ProcessDataMessage` | lib/WireGuard-ESP32/src/wireguardif.c:262-381 | the outcome for the only slot with the packet's index: destroyed, ignored or accepted; unchanged when there is none |
| `Peers.HandedOnIsLogged` | lib/WireGuard-ESP32/src/wireguardif.c:316-360 | every payload handed on, promoting or not, is in the history with its session and number |
| `Network.MirrorsUnderstand` | lib/WireGuard-ESP32/src/wireguard.c:1013-1020 | on mirrored keypairs each side decrypts whatever the other encrypts, under the right index |
| `Network.Exchange` | lib/WireGuard-ESP32/src/wireguard.c:486-948 | two configured devices in any state: after initiation and response the initiator's current and the responder's next keypair have crossed keys and indices |
| `Network.Connect` | lib/WireGuard-ESP32/src/wireguardif.c:216-306 | delivery of the initiator's keepalive makes the two current keypairs mirror images and confirms the responder's session; from then on the responder sends on it if and only if the clock reading stored was not 0 |
| `Network.ReceiveThrice` | lib/WireGuard-ESP32/src/wireguardif.c:303-320 | from any state, an authentic packet with a payload and a nonzero number that promotes is handed on, handed on once more, and then refused |
| `Network.HandedOnTwice` | lib/WireGuard-ESP32/src/wireguardif.c:303-320 | a run of two devices in which one packet is handed on twice and then refused: the keepalive is lost and the first data packet promotes |
| `Network.Run` | lib/WireGuard-ESP32/src/wireguardif.c:98-896 | over any run of sends, arrivals, timer ticks and reconfigurations: no (session, counter) pair is encrypted twice, none past the limit, responder sessions only after confirmation, one slot per session, own indices; a promoting packet is the first its session hands on; while every number checked makes an exact step, a number of a session is handed on again only after a promoting packet brought it, and at most twice in all; and all steps are exact if the numbers received are less than 2^32 apart |
| `Network.SafeState` | lib/WireGuard-ESP32/src/wireguardif.c:98-194 | what Run promises holds in every state that keeps the invariant |
| `Handoff.StepKeeps` | src/esp32_rtsp_mic_birdnetgo.ino:678-998 | every step of either core keeps the invariant and lets a reported stop last until the next hand-over |
| `Handoff.NeverShared` | src/esp32_rtsp_mic_birdnetgo.ino:711-735 | in every interleaving Core 1 dereferences only a client, and Core 0 reads, writes, stops or reassigns the socket only while Core 1 does not own it |
| `Handoff.QuietAfterStop` | src/esp32_rtsp_mic_birdnetgo.ino:964-987 | after requestStreamStop returned true Core 1 performs no read, write or stop on the socket until Core 0 next sets streamClient |
| `Handoff.ConfirmedExactly` | src/esp32_rtsp_mic_birdnetgo.ino:964-987 | in every invariant state in which Core 0 polls, some steps of Core 1 lead to the confirmation if and only if it has come or Core 1 has an audio task that is neither failing its allocation nor still waiting for an earlier request to be withdrawn |
| `Handoff.ConfirmationNears` | src/esp32_rtsp_mic_birdnetgo.ino:711-902 | from such a state every step that changes anything is one of Core 1 and comes nearer to the confirmation, at most 26 steps away, unless allocation fails: no fair run but one of endless write retries misses it |
| `Handoff.HopelessStays` | src/esp32_rtsp_mic_birdnetgo.ino:976-978 | from the other states no step of either core leads to the confirmation |
| `Handoff.NeverConfirmed` | src/esp32_rtsp_mic_birdnetgo.ino:964-998 | a run from power-up that reaches such a state stays in them |
| `Handoff.CreationFails` | src/esp32_rtsp_mic_birdnetgo.ino:1198-1208 | a run from power-up to the first: PLAY has set isStreaming and the audio task could not be created |
| `Handoff.AllocationFails` | src/esp32_rtsp_mic_birdnetgo.ino:689-696 | runs to the second: the audio task finds no memory and leaves, with isStreaming still set |
| `Handoff.SecondRequest` | src/esp32_rtsp_mic_birdnetgo.ino:724-726 | a run to the third: a second stop request comes before Core 1 has seen the first withdrawn, and Core 1 goes on waiting |
| `Handoff.ExitNears` | src/esp32_rtsp_mic_birdnetgo.ino:711-925 | while stopAudioCaptureTask waits, every step that changes anything is one of Core 1 and brings the exit semaphore nearer, at most five steps away |
| `Handoff.SemaphoreComes` | src/esp32_rtsp_mic_birdnetgo.ino:950-960 | from every such state that a run reaches, Core 1 alone comes to give the semaphore |

## Left out

Where the code and its own words differ, the model follows the code:

- `wireguard_check_replay` keeps a window of four numbers (`sizeof` of the bitmap in bytes), not the 32 its comment names; the theorem is proved for every size from 1 to 32. Distances of 2^32 and more wrap: `Replay.StepIsExact` says exactly which steps are then wrong.
- The rate limit on initiations subtracts the present from the last time, so it does not limit to two per second: `Devices.RateLimitHolds` says when it does.
- `wireguard_base64_decode` stores a byte its size check does not count; `Base64.DecodeInto` says exactly when.
- The packet that promotes a keypair is checked against the window of the slot it has just emptied, so its number is handed on once more: `Network.HandedOnTwice`.
- `requestStreamStop` is not always confirmed: `Handoff.ConfirmedExactly` says when it can be.
- RFC 7748 masks the top bit of u; `x25519` does not, as its header says.
- The `nanos` field of the timestamp holds thousandths of a second times 1000.

Contracts that say less than one might want:

- Replay.CheckAll: requires the numbers to be less than 2^32 apart; what happens beyond that is `Replay.StepIsExact`'s matter.
- Network.Run: what it says of repeated payloads is for runs whose window steps are all exact, as they are when the numbers received are less than 2^32 apart; `Replay.StepIsExact` says which steps are not.
- Handoff.NeverShared: leaves out the forced clean-up after the three- and two-second limits, the `connected()` queries of Core 0 outside negotiation (`src/WebUI.cpp:372` and the first half of the test at line 1464 of the sketch), and the plain `isStreaming = false` before a factory-reset reboot (line 588).
- Network.Connect: reads the clock once per handler.

Not modelled:

- The ChaCha quarter rounds, and the BLAKE2s mixing function with its permutation table: parameters of the model.
- Cookies, mac2 and the under-load path: `wireguard_is_under_load` is constantly false; mac2 is a parameter of the messages.
- The inner IP header, allowed addresses, byte counters and the peer's endpoint: a packet is handed on when the replay window accepts it.
- Removing and re-adding peers, and more than one peer: `WIREGUARD_MAX_PEERS` is 1.
- The X25519 signing and verification code, which is compiled out.
- The limbs r, h and pad of Poly1305, and the handshake and keypair structs, are records held in a field rather than arrays: copying them by value is what the struct assignments do; aliasing into their bytes is not captured. The handshake uses the results of the key derivation as values, which `Kdf.dfy` proves of the in-place code.
- Weak memory ordering between the cores: the volatile accesses and barriers are taken as sequentially consistent. Progress is claimed of the stop request and of the exit semaphore.
- lwIP, UDP, netif, NVS, WiFi, I2S, LED, the web interface, logging, the audio path, temperature protection apart from its stop requests, and the asynchronous name lookup.
