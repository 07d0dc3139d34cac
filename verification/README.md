# Freestyle Dash: cipher, upload writer, content list, wait list

A Dafny model of four parts of the dashboard, with proofs. `dafny verify dfyconfig.toml` checks all of it.

## The cipher (`CRijndael`)

`Rijndael.dfy` is the class: two 15-by-8 tables of round keys, the window `tk`, the work arrays `t` and `a`, the two
chains. Its methods fill and read these in place, on 32-bit words and bytes (`bv32`, `bv8`), for the nine pairs of key
and block length. The lookup tables are the literal ones of the repository, entry by entry (`SBoxTables`,
`EncryptTables`, `DecryptTables`, `RoundKeyTables`, `LogTables`); that they are what they are for is proved from the
arithmetic of GF(2^8) (`GaloisField`, `Columns`, `Words`, `SBoxMeaning`). `RijndaelSpec` is FIPS 197 on columns of
bytes, with the widths of 6 and 8 columns of the Rijndael submission; `BlockCipher` and `KeyWords` hold the key
expansion; `TableRounds` connects words to columns; `RoundFormulas` says what these definitions come to in bytes, literal
tables and numbers. `Modes` is ECB, CBC and CFB as functions; `InPlace` is what the
same loops compute when input and result are one buffer. `Exchange` puts two objects at the ends of a channel.

The line of argument: literal tables mean field arithmetic; a table round is a textbook round; the object's methods
compute the textbook cipher and the equivalent inverse cipher; those undo each other; hence the modes do, over messages,
calls and runs.

What came out on the way, with exact conditions:

- Sharing one buffer between input and result is safe for encryption in all modes but CFB, and for decryption in ECB
  alone. In CFB every block comes out as zeros; in CBC decryption the chain takes plaintext.
- `Mul` and `Mul4` test a factor for zero before they mask it to a byte, so a nonzero multiple of 256 is taken for 1.
  Nothing in the repository calls the two; the tables they were made for are literal.

## The upload writer (`FTPFileWriter`)

`FtpWriter.dfy` is a state machine. Each read or write of `waitingForBytes`, `done` and `loopRunning`, each step on the
buffer and each call on the file is a step of its own; a run is any sequence of steps of the two sides and of new calls.
The session makes one call after another and none after `Close`. Misuse of memory or of the file sets a flag that the
invariant shows never to be set. `Terminate`, the last step of `Close`, waits for the thread half a second at most and
then leaves it alone (Freestyle/Tools/Threads/cthread.cpp:112-128); a thread may go on, and runs go on with it, after
`Close` has returned.

What came out on the way, with exact conditions:

- Once `Close` has returned the thread is at its end, in every run, if and only if some buffer has been given to
  `SetBytes`. Without one, as for an empty upload, a thread that starts late sets the flags of the writer object, which
  is a local variable of the caller (Freestyle/Tools/FTP/FTPServerConn.cpp:1048-1088). It writes no file.
- With the server setting off, a call of `SetBytes` never returns.

## The content list (`ContentManager`)

`ContentTree` is the file system below a scan path as a finite tree, listed in the order of `FindFirstFile` and
`FindNextFile`, with the recursive definition of what a scan is after, and `ContentReach` says the same for each file by
the chain of folders above it. `ContentStore` holds list and tables as values
and the scan as the program does it, step by step; `ContentLaws` relates the two and follows list and table over runs;
`ContentManager` is the class with its loops. Whether a file opens as an item is any predicate on its path.

What came out on the way, with exact conditions:

- The lookup of a path asks for a row of any scan path. The same path on another device keeps a file, or with a
  default.xex or default.xbe a whole directory, from being scanned.
- The lookup of a path that is no longer registered always answers no. Such a path can still be in the queue; scanned
  then, its files are listed a second time, and where their rows exist already, under ids that have no row.
- Loading joins the rows with the mounted devices. A row whose serial number two mounted devices share is listed twice.

## The wait list (`CXuiWaitList`)

`WaitList.dfy` is the class with its two arrays and the count, refined to one sequence of pairs. The comment in the
source says that a one-shot entry is taken out before its action runs; the code then reads the slot again, and the model
follows the code: the entry after it decides unless it was the last.

## Model

| member | source | states |
|---|---|---|
| SBoxMeaning.SubstitutionIsAffineInverse | Freestyle/Tools/AES/Rijndael.cpp:48-66 | every entry of `sm_S` is the affine transformation of the inverse in GF(2^8), as section 5.1.1 of FIPS 197 defines the substitution |
| SBoxMeaning.InverseInverts | Freestyle/Tools/AES/Rijndael.cpp:8-46 | the inverse used there is one: the product of a nonzero byte and its inverse, read off the logarithm tables, is 1 |
| SBoxTables.SubstitutionInverts | Freestyle/Tools/AES/Rijndael.cpp:48-86 | `sm_Si` and `sm_S` undo each other on all bytes, both ways round |
| Words.EncryptLookup | Freestyle/Tools/AES/Rijndael.cpp:88-359 | for all four bytes, `T1[a]^T2[b]^T3[c]^T4[d]` over the literal tables is SubBytes followed by MixColumns of the column (a,b,c,d) |
| Words.DecryptLookup | Freestyle/Tools/AES/Rijndael.cpp:360-631 | for all four bytes, `T5[a]^T6[b]^T7[c]^T8[d]` over the literal tables is the inverse substitution followed by the inverse column mixing |
| Words.RoundKeyLookup | Freestyle/Tools/AES/Rijndael.cpp:632-902 | for all four bytes, `U1[a]^U2[b]^U3[c]^U4[d]` over the literal tables is the inverse column mixing alone |
| KeyWords.RconIsPower | Freestyle/Tools/AES/Rijndael.cpp:904-911 | each of the 30 round constants is x^n in GF(2^8) |
| RijndaelSpec.OffsetsCancel | Freestyle/Tools/AES/Rijndael.cpp:913-918 | for every block width the encryption and decryption shifts of a row cancel modulo that width |
| LogMultiplication.AlogHomomorphism | Freestyle/Tools/AES/Rijndael.cpp:8-46 | the antilogarithm table turns sums modulo 255 into field products |
| LogMultiplication.LogMulIsProductIff | Freestyle/Tools/AES/Rijndael.h:43-46 | `Mul` is the field product of the low bytes if and only if a factor is zero or both low bytes are nonzero: the zero test comes before the mask |
| LogMultiplication.LogMulOfWideFactor | Freestyle/Tools/AES/Rijndael.h:45 | an input on which the two differ: 256 times 1 gives 1, though the low byte of 256 is zero |
| LogMultiplication.LogMulTakes | Freestyle/Tools/AES/Rijndael.h:43-46 | for all nonzero factors `Mul` is the product of what they are taken for: the low byte, or 1 where that is zero |
| LogMultiplication.LogMul4Takes | Freestyle/Tools/AES/Rijndael.h:49-59 | for every nonzero factor `Mul4` multiplies each byte of the column by what the factor is taken for |
| LogMultiplication.LogMul4IsProductIff | Freestyle/Tools/AES/Rijndael.h:49-59 | `Mul4` multiplies by the low byte of its factor if and only if the factor is zero, its low byte is not, or the whole column is zero |
| GaloisField.MulAssociative | Freestyle/Tools/AES/Rijndael.cpp:88-902 | the field product is associative; with linearity and the reduction of x^8 this carries every table argument |
| Columns.CirculantCompose | Freestyle/Tools/AES/Rijndael.cpp:360-902 | mixing by one polynomial after another is mixing by their product modulo x^4 + 1 |
| Columns.MixColInverts | Freestyle/Tools/AES/Rijndael.cpp:632-902 | the column mixing of T1..T4 and the unmixing of T5..T8 and U1..U4 undo each other, both ways round |
| RijndaelSpec.ShiftRowsInverts | Freestyle/Tools/AES/Rijndael.cpp:1207-1210 | the row rotations with the two columns of `sm_shifts` undo each other for 4, 6 and 8 columns |
| RijndaelSpec.InvCipherAfterCipher | Freestyle/Tools/AES/Rijndael.cpp:1197-1292 | whatever the round keys, undoing the steps in reverse order recovers the block, for every width and round count |
| RijndaelSpec.CipherAfterInvCipher | Freestyle/Tools/AES/Rijndael.cpp:1197-1292 | and the other way: the cipher undoes the inverse cipher |
| RijndaelSpec.EqInvCipherIsInvCipher | Freestyle/Tools/AES/Rijndael.cpp:1033-1041 | section 5.3.5: the equivalent inverse cipher over reversed round keys, the inner ones unmixed, is the plain inverse cipher |
| BlockCipher.BlockFunctionsInvert | Freestyle/Tools/AES/Rijndael.cpp:1197-1292 | on blocks of bytes: with the schedules `MakeKey` builds, decryption undoes encryption and encryption undoes decryption |
| BlockCipher.ExpandKey | Freestyle/Tools/AES/Rijndael.cpp:942-1043 | for every key of every legal length: decryption keys that match the encryption keys, the right block size, and 10 rounds when key and block have 16 bytes, 14 when either has 32, 12 otherwise |
| KeyWords.WordOfPass | Freestyle/Tools/AES/Rijndael.cpp:1001-1024 | one pass over `tk` yields the next words of the recurrence of section 5.2, including the extra substitution for eight columns; `RoundFormulas` says it of the round keys with the literal tables |
| KeyWords.SlotUnique | Freestyle/Tools/AES/Rijndael.cpp:994-1031 | every `[row][column]` of the two tables belongs to exactly one word of the expanded key |
| KeyWords.RconInRange | Freestyle/Tools/AES/Rijndael.cpp:1000-1009 | for all nine size pairs, a pass that is still needed finds its round constant inside the 30-entry table |
| RoundFormulas.FirstWords | Freestyle/Tools/AES/Rijndael.cpp:984-999 | the round keys start with the bytes of the key, four to a word |
| RoundFormulas.PassStarts | Freestyle/Tools/AES/Rijndael.cpp:1004-1009 | the first word of a pass is the one a pass back, plus the substituted and rotated last word, plus the entry of `sm_rcon` for the pass in the top byte |
| RoundFormulas.WordOfNewPass | Freestyle/Tools/AES/Rijndael.cpp:1003-1030 | the same of the round keys that a key gives, for all nine size pairs, with a pass number that the table has |
| RoundFormulas.WordOfHalfPass | Freestyle/Tools/AES/Rijndael.cpp:1017-1021 | in a pass of eight words the fifth goes through `sm_S`, not rotated |
| RoundFormulas.WordInPass | Freestyle/Tools/AES/Rijndael.cpp:1010-1023 | every other word of the round keys is the sum of the one a pass back and the one before |
| RoundFormulas.DecryptionKey | Freestyle/Tools/AES/Rijndael.cpp:1033-1041 | round r of the decryption keys is round nr - r of the others, the inner ones through the literal tables U1 to U4 |
| Rijndael.Rijndael.CopyKey | Freestyle/Tools/AES/Rijndael.cpp:984-992 | `tk` holds the columns of the key |
| Rijndael.Rijndael.StoreWord | Freestyle/Tools/AES/Rijndael.cpp:1028-1029 | word t goes into `m_Ke[t/BC][t%BC]` and its round-mirrored place in `m_Kd`; every slot filled before keeps its word |
| Rijndael.Rijndael.StorePass | Freestyle/Tools/AES/Rijndael.cpp:995-999 | a pass is copied until it or the tables end, and the count says where the next one starts |
| Rijndael.Rijndael.Evolve | Freestyle/Tools/AES/Rijndael.cpp:1003-1024 | `tk` is turned from one pass of the expanded key into the next, in place; what a pass is, `RoundFormulas` says with the literal tables |
| Rijndael.Rijndael.AddUp | Freestyle/Tools/AES/Rijndael.cpp:1010-1024 | the running sum over a stretch of `tk`, each word with its new left neighbour |
| Rijndael.Rijndael.FillTables | Freestyle/Tools/AES/Rijndael.cpp:994-1031 | the passes fill every slot of both tables with the word of the recurrence that belongs there |
| Rijndael.Rijndael.UnmixKeys | Freestyle/Tools/AES/Rijndael.cpp:1032-1041 | the inner rows of `m_Kd` become the round keys of the equivalent inverse cipher, in place |
| Rijndael.Rijndael.CountRounds | Freestyle/Tools/AES/Rijndael.cpp:955-968 | the switch gives 10 rounds when key and block have 16 bytes, 14 when either has 32, 12 otherwise |
| Rijndael.Rijndael.ExpandInto | Freestyle/Tools/AES/Rijndael.cpp:969-1041 | after the expansion `m_Ke` and `m_Kd` hold the schedule of the key, for all nine size pairs |
| Rijndael.Rijndael.MakeKey | Freestyle/Tools/AES/Rijndael.cpp:942-1043 | the three error cases in their order, for lengths other than 16, 24 and 32; otherwise the object is valid, holds the schedule of the key, both chains, the block size and the 10, 12 or 14 rounds; a refused call changes nothing |
| Rijndael.Rijndael.constructor | Freestyle/Tools/AES/Rijndael.cpp:928-930 | a fresh object without a key |
| TableRounds.EncWordMeans | Freestyle/Tools/AES/Rijndael.cpp:1226-1229 | one column of the table round is substitution, mixing and key addition of a diagonal |
| TableRounds.DecWordMeans | Freestyle/Tools/AES/Rijndael.cpp:1276-1279 | one column of the inverse table round is inverse substitution, unmixing and key addition of a diagonal |
| TableRounds.EncRoundFromWords | Freestyle/Tools/AES/Rijndael.cpp:1225-1230 | columns gathered with `t[(i+s)%BC]` make AddRoundKey(MixColumns(ShiftRows(SubBytes(state)))), for every width |
| TableRounds.DecRoundFromWords | Freestyle/Tools/AES/Rijndael.cpp:1275-1280 | the same for the equivalent inverse cipher |
| TableRounds.EncLastFromWords | Freestyle/Tools/AES/Rijndael.cpp:1233-1241 | the special last round is the round without MixColumns |
| TableRounds.GatherFour | Freestyle/Tools/AES/Rijndael.cpp:1075-1090 | the index pattern written out in the unrolled paths is the rotation for four columns |
| RoundFormulas.BlockBytes | Freestyle/Tools/AES/Rijndael.cpp:1215-1221 | byte 4i + q of a block is byte q of column i of the state |
| RoundFormulas.StateBytes | Freestyle/Tools/AES/Rijndael.cpp:1234-1241 | and the other way when a block is written |
| RoundFormulas.SubstitutedAndTurned | Freestyle/Tools/AES/Rijndael.cpp:913-918 | after SubBytes and ShiftRows column i takes its bytes from columns i, i + 1, i + 2, i + 3, and with eight columns from i, i + 1, i + 3, i + 4 |
| RoundFormulas.SubstitutedAndTurnedBack | Freestyle/Tools/AES/Rijndael.cpp:913-918 | the inverse steps take them from columns i, i - 1, i - 2, i - 3, and with eight columns from i, i + 7, i + 5, i + 4 |
| RoundFormulas.FirstState | Freestyle/Tools/AES/Rijndael.cpp:1215-1221 | the first state of the cipher is the block plus the first round key |
| RoundFormulas.NextState | Freestyle/Tools/AES/Rijndael.cpp:1223-1231 | each further state by the literal tables T1 to T4 from the columns given by the numbers of `sm_shifts` |
| RoundFormulas.LastState | Freestyle/Tools/AES/Rijndael.cpp:1233-1241 | the output by `sm_S` from the same columns |
| RoundFormulas.FirstStateBack | Freestyle/Tools/AES/Rijndael.cpp:1265-1271 | the first state of decryption is the block plus the first decryption key |
| RoundFormulas.NextStateBack | Freestyle/Tools/AES/Rijndael.cpp:1273-1281 | each further state by the literal tables T5 to T8 and the numbers of `sm_shifts` |
| RoundFormulas.LastStateBack | Freestyle/Tools/AES/Rijndael.cpp:1283-1291 | the output by `sm_Si` from the same columns |
| RoundFormulas.SumsAreXors | Freestyle/Tools/AES/Rijndael.h:82 | the sums in all of these are the exclusive or of bytes and words |
| RoundFormulas.SumOfFour | Freestyle/Tools/AES/Rijndael.cpp:1226-1229 | and that of four lookups |
| Rijndael.Rijndael.Load | Freestyle/Tools/AES/Rijndael.cpp:1215-1221 | the block is loaded into `t` with the first round key added |
| Rijndael.Rijndael.EncryptRound | Freestyle/Tools/AES/Rijndael.cpp:1225-1230 | one round of the loop replaces the state in `t` by the round function of section 5.1 applied to it |
| Rijndael.Rijndael.EncryptLast | Freestyle/Tools/AES/Rijndael.cpp:1232-1241 | the last round writes exactly the output block into the buffer |
| Rijndael.Rijndael.EncryptGeneral | Freestyle/Tools/AES/Rijndael.cpp:1206-1242 | the general path writes the cipher of section 5.1 of the block, for every width including four, and nothing else; source and destination may be one buffer |
| Rijndael.Rijndael.DefEncryptRound | Freestyle/Tools/AES/Rijndael.cpp:1074-1094 | one unrolled round is the round function at four columns |
| Rijndael.Rijndael.DefEncryptBlock | Freestyle/Tools/AES/Rijndael.cpp:1049-1118 | the unrolled path writes the same block as the general path taken at four columns: both meet the same specification |
| Rijndael.Rijndael.EncryptBlock | Freestyle/Tools/AES/Rijndael.cpp:1197-1242 | the block cipher through whichever path the width selects; without a key, the error and no change |
| Rijndael.Rijndael.DecryptRound | Freestyle/Tools/AES/Rijndael.cpp:1275-1280 | one round of the loop over `m_Kd` is a round of the equivalent inverse cipher |
| Rijndael.Rijndael.DecryptGeneral | Freestyle/Tools/AES/Rijndael.cpp:1256-1292 | the general path writes the equivalent inverse cipher of the block, for every width including four |
| Rijndael.Rijndael.DefDecryptBlock | Freestyle/Tools/AES/Rijndael.cpp:1124-1192 | the unrolled path writes the same block as the general path taken at four columns |
| Rijndael.Rijndael.DecryptBlock | Freestyle/Tools/AES/Rijndael.cpp:1247-1292 | the inverse block cipher through whichever path the width selects; without a key, the error and no change |
| Rijndael.Rijndael.XorInto | Freestyle/Tools/AES/Rijndael.h:77-83 | the block at a place of a buffer becomes its sum with another and the rest of the buffer stays; without a key, the error and no change |
| Rijndael.Rijndael.ResetChain | Freestyle/Tools/AES/Rijndael.h:136-139 | the chain is the first chain again |
| Rijndael.Rijndael.EncryptCbc | Freestyle/Tools/AES/Rijndael.cpp:1308-1310 | one CBC block: output and chain, and nothing else in the buffer |
| Rijndael.Rijndael.EncryptCfb | Freestyle/Tools/AES/Rijndael.cpp:1319-1321 | one CFB block, and what comes out when input and result are one buffer: zeros |
| Rijndael.Rijndael.DecryptCbc | Freestyle/Tools/AES/Rijndael.cpp:1351-1353 | one CBC block back; on one buffer the chain takes the plaintext instead of the ciphertext |
| Rijndael.Rijndael.DecryptCfb | Freestyle/Tools/AES/Rijndael.cpp:1362-1365 | one CFB block back; on one buffer, zeros |
| Rijndael.Rijndael.Encrypt | Freestyle/Tools/AES/Rijndael.cpp:1294-1335 | the errors; otherwise, for every length and mode, the result buffer and the chain are what the mode says for two buffers, and exactly what `SharedEncrypt` says for one |
| Rijndael.Rijndael.Decrypt | Freestyle/Tools/AES/Rijndael.cpp:1337-1379 | likewise |
| Modes.EncryptByBlocks | Freestyle/Tools/AES/Rijndael.cpp:1304-1334 | every ciphertext block in terms of its plaintext block and the ciphertext block before it (sections 6.1 to 6.3 of NIST SP 800-38A) |
| Modes.DecryptByBlocks | Freestyle/Tools/AES/Rijndael.cpp:1347-1378 | every plaintext block in terms of its ciphertext block and the one before it |
| Modes.EncryptionBytes | Freestyle/Tools/AES/Rijndael.cpp:1304-1334 | the ciphertext at every block offset, byte by byte: mode 1 is CBC, mode 2 is CFB, every other number is ECB |
| Modes.DecryptionBytes | Freestyle/Tools/AES/Rijndael.cpp:1347-1378 | the plaintext at every block offset, byte by byte, with the same numbers |
| Modes.ChainIsLastBlock | Freestyle/Tools/AES/Rijndael.cpp:1310-1321 | the chain a call leaves behind is its last ciphertext block; ECB leaves it alone |
| Modes.MessageRoundTrip | Freestyle/Tools/AES/Rijndael.cpp:1294-1379 | decrypting from the same chain returns the message and the same chain, for every whole length and mode; CFB without any inverse of the block function |
| Modes.CiphertextRoundTrip | Freestyle/Tools/AES/Rijndael.cpp:1294-1379 | every ciphertext is the encryption of its decryption |
| Modes.EncryptStreams | Freestyle/Tools/AES/Rijndael.cpp:1304-1325 | two calls with the carried chain give the bytes and the chain of one call on the joined message |
| Modes.DecryptStreams | Freestyle/Tools/AES/Rijndael.cpp:1347-1369 | the same for decryption |
| Modes.SelfSynchronising | Freestyle/Tools/AES/Rijndael.cpp:1347-1369 | in CBC and CFB a receiver with any wrong chain still reads every block after the first, and ends with the right chain |
| Modes.RunRoundTrip | Freestyle/Tools/AES/Rijndael.cpp:1294-1379 | over any run of calls, the mode chosen per call and resets anywhere, every message is read and the two chains stay equal |
| Modes.CallByCall | Freestyle/Tools/AES/Rijndael.h:136-139 | in a run a message goes on from the chain the call before has left, and a reset goes back to the first chain |
| InPlace.SharedEncryptSafeIff | Freestyle/Tools/AES/Rijndael.cpp:1319-1321 | encrypting over the plaintext gives what the mode says, for all messages, if and only if the mode is not CFB |
| InPlace.SharedDecryptSafeIff | Freestyle/Tools/AES/Rijndael.cpp:1347-1369 | decrypting over the ciphertext gives what the mode says, for all messages, if and only if the mode is neither CBC nor CFB |
| Exchange.Agree | Freestyle/Tools/AES/Rijndael.cpp:942-954 | two objects given the same key and chain hold the same schedule and the same chains |
| Exchange.Transfer | Freestyle/Tools/AES/Rijndael.cpp:1294-1379 | a message encrypted by one object into memory and decrypted from there by the other arrives, and leaves both ready for the next |
| Exchange.Reset | Freestyle/Tools/AES/Rijndael.h:136-139 | resetting both ends keeps them in step |
| FtpWriter.Always | Freestyle/Tools/FTP/FTPFileWriter.h:37-62 | the invariant of the hand-over holds after every interleaving of session and writer steps |
| FtpWriter.InvSession | Freestyle/Tools/FTP/FTPFileWriter.h:37-62 | every step of `SetBytes` and `Close` keeps the invariant |
| FtpWriter.WriterKeepsPositions | Freestyle/Tools/FTP/FTPFileWriter.cpp:9-37 | every step of `Process` keeps what the invariant says of the flags and positions |
| FtpWriter.WriterKeepsData | Freestyle/Tools/FTP/FTPFileWriter.cpp:22-35 | every step of `Process` keeps what it says of buffer and file |
| FtpWriter.Conservation | Freestyle/Tools/FTP/FTPFileWriter.cpp:18-34 | in every reachable state the file is the concatenation of the buffers of the calls of the run that are over, in order: of all, or of all but the last, which then is in the slot |
| FtpWriter.CallsGive | Freestyle/Tools/FTP/FTPFileWriter.h:37-48 | a call of `SetBytes` starts with the very buffer of the call; no other step gives a buffer |
| FtpWriter.CallsAreGiven | Freestyle/Tools/FTP/FTPFileWriter.h:37-48 | after any run the buffers given are those of its calls, in order |
| FtpWriter.ConcatJoins | Freestyle/Tools/FTP/FTPFileWriter.cpp:27 | the concatenation used is one: of a single buffer it is the buffer, and of two lists their concatenations joined |
| FtpWriter.OneOwner | Freestyle/Tools/FTP/FTPFileWriter.h:47-50 | session and writer never hold the buffer at once; no dead block is used, no live one lost, no closed file written or closed again; the file is open until `Close` closes it |
| FtpWriter.CloseLosesNothing | Freestyle/Tools/FTP/FTPFileWriter.h:53-62 | once `Close` is past its wait loop the file holds the buffers of all calls of `SetBytes` in the run, and no later step of either side changes it, also when `Close` runs before the thread has started and the thread goes on after `Close` has returned |
| FtpWriter.CloseBeforeStart | Freestyle/Tools/FTP/FTPFileWriter.h:55-60 | that case occurs: a run in which `Close` gets past the wait before the thread has done a step |
| FtpWriter.NoThreadBehindClose | Freestyle/Tools/FTP/FTPFileWriter.h:53-62 | in every run with a call of `SetBytes`, the thread has run to its end by the time `Close` is past its wait loop |
| FtpWriter.ThreadEndsBeforeCloseIff | Freestyle/Tools/Threads/cthread.cpp:112-128 | in all runs with given calls the thread is at its end when `Close` has returned, if and only if there was a call of `SetBytes` |
| FtpWriter.LateThread | Freestyle/Tools/FTP/FTPServerConn.cpp:1048-1088 | a run without a call of `SetBytes` in which the thread sets `loopRunning` after `Close` has returned |
| FtpWriter.DrainsAndReturns | Freestyle/Tools/FTP/FTPFileWriter.cpp:20-37 | once `done` is set the writer ends within nine of its own steps, whatever the session does between them, and writes only the buffer in flight |
| FtpWriter.CloseReturns | Freestyle/Tools/FTP/FTPFileWriter.h:53-62 | from the start of `Close`, a step of the session, then nine of the writer, then three of the session, with any others between them, are enough: it has returned, and the closed file holds the buffers of all calls |
| FtpWriter.SetBytesReturnsIff | Freestyle/Tools/FTP/FTPFileWriter.h:43-50 | in a waiting `SetBytes`, five steps of the writer and then five of the session, with any others between them, end the call if and only if the server setting is on |
| ContentTree.AfterColonJoins | Freestyle/Tools/ContentList/ContentManager.cpp:254 | cutting off the device and appending a name can be exchanged, so the scan looks up the path that it stores |
| ContentTree.AfterDevice | Freestyle/Tools/ContentList/ContentItemNew.cpp:283-284 | of a path on a device everything up to the colon goes and the rest is kept; a path without a device stays |
| ContentTree.YieldsOnce | Freestyle/Tools/ContentList/ContentManager.cpp:250-327 | what a tree has to offer has pairwise different paths, and the path of one is never looked up for another |
| ContentTree.DeeperFindsMore | Freestyle/Tools/ContentList/ContentManager.cpp:303-306 | a scan of greater depth, or of depth -1, finds all that a shallower one finds, through the same lookups; what each depth finds, `ContentReach.OfferIs` says |
| ContentReach.OfferIs | Freestyle/Tools/ContentList/ContentManager.cpp:250-327 | for every tree, depth and chain of folders: a file k folders down is among those a scan is after if and only if it is there and good, k is 0 or at most the depth or the depth is -1, no folder above has a good default.xex or default.xbe, and its own has none that goes before it; looked up for it are its own path and the two default files of every folder on the way |
| ContentReach.DirGrows | Freestyle/Tools/ContentList/ContentManager.cpp:302 | the path of a folder is its parent's, its name and a backslash |
| ContentReach.ScanAddsIff | Freestyle/Tools/ContentList/ContentManager.cpp:250-327 | a scan adds an item for a file if and only if the file is on offer in that sense and, when its path is registered, no row of any scan path has one of the paths looked up for it |
| ContentStore.ScanAdds | Freestyle/Tools/ContentList/ContentManager.cpp:250-327 | for every finite tree and depth the step-by-step scan adds, in order, what the tree has to offer without the files for which a lookup on the way hits a row |
| ContentLaws.ScanGrows | Freestyle/Tools/ContentList/ContentManager.cpp:250-327 | the list grows by one item for each such file, in order, with pairwise different paths; the items before are untouched |
| ContentLaws.CompleteIff | Freestyle/Tools/ContentList/ContentManager.cpp:252-266 | a scan brings everything the tree has to offer if and only if none of those lookups hits a row |
| ContentLaws.AnotherPathHides | Freestyle/Tools/SQLite/FSDSql.cpp:500-537 | a scan path without a single row can be scanned in vain: a row of another scan path with the same path below its device answers the lookup |
| ContentStore.SeenMeans | Freestyle/Tools/SQLite/FSDSql.cpp:512-521 | the lookup hits when the asking path is registered and some row, of whichever path, has the path asked for |
| ContentLaws.RescanAddsNothingIff | Freestyle/Tools/ContentList/ContentManager.cpp:250-327 | scanning an unchanged tree again adds nothing if and only if the scan path is registered or there is nothing to find |
| ContentLaws.DeeperRescan | Freestyle/Tools/ContentList/ContentManager.cpp:250-327 | a scan and a deeper rescan find together exactly what the deeper one would have found alone; nothing is added twice if and only if the scan path is registered or the first had nothing to find |
| ContentLaws.LoadingIsOneToOneIff | Freestyle/Tools/SQLite/FSDSql.cpp:396-417 | loading makes list and table agree, but for the rows that are not fetched, if and only if no row is fetched twice |
| ContentLaws.ScanIsOneToOneIff | Freestyle/Tools/SQLite/FSDSql.cpp:170-243 | a scan keeps list and table one to one if and only if its path is registered or no file found has a row of that path: a refused insertion still returns an id |
| ContentLaws.DeletingIsOneToOne | Freestyle/Tools/ContentList/ContentManager.cpp:371-387 | deleting an item removes it and its row and nothing else |
| ContentLaws.DeletedMeans | Freestyle/Tools/ContentList/ContentManager.cpp:373-386 | in any list, the first occurrence goes and the others keep their order; in the table, the rows with its id go |
| ContentLaws.RemovedMeans | Freestyle/Tools/ContentList/ContentManager.cpp:417-430 | in any list, exactly the items of the path go; in the table, exactly the rows with their ids |
| ContentLaws.RemovingIsOneToOne | Freestyle/Tools/ContentList/ContentManager.cpp:415-431 | removing a scan path removes its items and exactly their rows; rows that are not shown stay |
| ContentLaws.RunIsOneToOne | Freestyle/Tools/ContentList/ContentManager.cpp:197-437 | from a loading that fetches no row twice, over any run of scans, deletions and removals that meet the condition of each scan, list and table stay one to one |
| ContentLaws.RefreshBrings | Freestyle/Tools/ContentList/ContentManager.cpp:432-437 | removing and rescanning a path leaves the other items in front and what the scan finds behind them |
| ContentLaws.RefreshCompleteIff | Freestyle/Tools/ContentList/ContentManager.cpp:432-437 | after that the path has all its tree has to offer if and only if it is not registered, or every row met on the way belongs to it and was not hidden |
| ContentManager.ContentManager.ItemPathExistsInDB | Freestyle/Tools/SQLite/FSDSql.cpp:500-537 | true exactly when the asking path is registered and a row of any scan path has this path |
| ContentManager.ContentManager.AddContentItem | Freestyle/Tools/SQLite/FSDSql.cpp:170-243 | the id is one more than the largest, and 1 in an empty table; the row goes in unless path, file name and scan path are taken, and the id is returned either way |
| ContentManager.ContentManager.CreateItem | Freestyle/Tools/ContentList/ContentItemNew.cpp:279-306 | a file that does not open as an item gives none and no row; otherwise item and row, with the path that is left without the device |
| ContentManager.ContentManager.TryFile | Freestyle/Tools/ContentList/ContentManager.cpp:272-288 | an item is made and appended exactly when the file is good |
| ContentManager.ContentManager.ScanDirectory | Freestyle/Tools/ContentList/ContentManager.cpp:250-327 | the recursive loop computes the scan function, for every depth, and terminates |
| ContentManager.ContentManager.AddItem | Freestyle/Tools/ContentList/ContentManager.cpp:328-338 | the item goes to the end of the list |
| ContentManager.ContentManager.DeleteItem | Freestyle/Tools/ContentList/ContentManager.cpp:371-387 | the first occurrence leaves the list, the row leaves the table |
| ContentManager.ContentManager.RemoveScanPath | Freestyle/Tools/ContentList/ContentManager.cpp:415-431 | the loop that starts over after every erasure ends, and is an order-preserving filter of the list that deletes the rows of the items filtered out |
| ContentManager.ContentManager.UpdateScanPath | Freestyle/Tools/ContentList/ContentManager.cpp:432-437 | the items of the path go, and the path is queued |
| ContentManager.ContentManager.ProcessNext | Freestyle/Tools/ContentList/ContentManager.cpp:455-470 | the queue is served first in, first out, each path scanned to its own depth |
| ContentManager.Perform | Freestyle/Tools/ContentList/ContentManager.cpp:250-431 | the steps of the runs above are what the methods do to list and table |
| ContentManager.ContentManager.Initialize | Freestyle/Tools/ContentList/ContentManager.cpp:197-245 | what the query fetches goes to the end of the list, in order and as often as it is fetched, and the paths are queued unless automatic scanning is off |
| WaitList.MoveDown | Freestyle/CXuiWaitList.cpp:138-141 | the shift of one of the arrays, in place |
| WaitList.WaitList.RegisterWaitHandle | Freestyle/CXuiWaitList.cpp:14-37 | refused when full; otherwise the pair with its message and flag goes to the end of the list |
| WaitList.WaitList.RegisterWaitHandleFunc | Freestyle/CXuiWaitList.cpp:44-68 | refused when full; otherwise the pair with its routine and flag goes to the end of the list |
| WaitList.WaitList.RemoveWaitEntry | Freestyle/CXuiWaitList.cpp:134-144 | both arrays lose the same place, the order is kept; and which entry stands at that place of the array afterwards |
| WaitList.WaitList.UnregisterWaitHandle | Freestyle/CXuiWaitList.cpp:151-167 | exactly the first pair with the handle goes; an unknown handle changes nothing |
| WaitList.WaitList.DispatchWaitEntry | Freestyle/CXuiWaitList.cpp:103-127 | what is fired and what the list is afterwards, for every index and every list |
| WaitList.WaitList.ProcessWaitHandles | Freestyle/CXuiWaitList.cpp:77-95 | the same for every result of the wait |
| WaitList.FiresOwnIff | Freestyle/CXuiWaitList.cpp:109-126 | a dispatch fires the entry's own action if and only if the entry is persistent, or last, or the next one is of its kind and, for a callback, has the same routine and context |
| WaitList.FlagsMean | Freestyle/CXuiWaitList.cpp:26-33 | an entry stays in the list when it is signalled if and only if it was registered to stay |
| WaitList.RegisteredThenSignalled | Freestyle/CXuiWaitList.cpp:14-68 | registered with room and then signalled, a message or a callback comes out as registered, and the entry is gone or stays as asked for |
| WaitList.FiresTheNext | Freestyle/CXuiWaitList.cpp:113-125 | two one-shot callbacks: signalling the first runs the second's routine, which stays registered |
| WaitList.PlaceMeans | Freestyle/CXuiWaitList.cpp:82-90 | a result dispatches the handle it stands for; the value one past the end, which the range test lets through, dispatches nothing |
| WaitList.RegisterUnregister | Freestyle/CXuiWaitList.cpp:14-37 | unregistering undoes registering if and only if, with room in the list, from the first pair with that handle on every pair is the new one; of a full list, the handle is not in it |
| WaitList.RunKeepsOrder | Freestyle/CXuiWaitList.cpp:14-167 | after any run of registrations, removals and dispatches the list is within 64 places and picks, in order and each once, pairs that were registered |
| WaitList.Perform | Freestyle/CXuiWaitList.cpp:14-167 | the steps of those runs are what the methods do to the list, and what a dispatch fires |

## Left out

- Rijndael: the texts of the exceptions; the accessors; the copy of the class in Freestyle/Tools/Encryption/Rijndael.h.
- Rijndael: `>>` on a negative `int` is arithmetic and is modelled as logical; after the masks and the truncations to a
  byte that follow it everywhere the two agree.
- Rijndael.Rijndael.Encrypt: does not cover buffers that overlap without starting at the same place; its three loops are
  written as one loop that selects the mode block by block, and a length is unbounded, where the source counts blocks in
  an `int`.
- Rijndael.Rijndael.Decrypt: the same.
- Rijndael.Rijndael.ResetChain: before a key is set the block size is whatever the memory held; the model asks that it be
  no more than the 32 bytes of the chain.
- FtpWriter: a file that cannot be opened, `Initial` has it open; allocation that fails; sizes that are not whole numbers;
  writes that come back short; the log line for odd lengths; orders weaker than sequential consistency; a second `Close`,
  and calls from several threads; when the owner frees the object.
- FtpWriter.SetBytesReturnsIff: takes the writer's steps as given; how the system schedules the thread is not modelled.
- ContentManager: observers, locks, the thread's pauses, asset downloads, title updates; what makes a file good
  (CreateItem lines 287 to 562) is a parameter; assets of a row go with it and are not modelled.
- ContentManager.ContentManager.AddContentItem: the largest id is exact here; the program takes it through a `float`,
  which is exact up to 2^24, and through a 32-bit `DWORD`.
- ContentManager.ContentManager.ItemPathExistsInDB: ids of rows are positive, as the insertion assigns them; the program
  would take a row with id 0 for none.
- ContentManager.ContentManager.Initialize: rows are loaded in the order of their ids, where the query fixes no order; how
  often a row is fetched is any function of the row.
- ContentLaws.LoadingIsOneToOneIff: which rows are fetched more than once depends on the serial numbers of the mounted
  devices (Freestyle/Tools/Managers/Drives/Drive.cpp:94-103), which are not modelled; the count per row is a parameter.
- ContentManager.ContentManager.DeleteItem: items are values, and an item is found by equality where the program compares
  pointers; ids tell items apart as long as list and table are one to one.
- ContentTree: names are compared exactly, without regard to a file system that ignores case; a listing does not change
  during a scan.
- WaitList: the wait itself is a parameter of `ProcessWaitHandles`; an action is returned and not run, so actions that
  register or unregister while they run are not modelled; the class in the source sets no initial count, the model
  starts at zero.
- `GetContentByContentId`, `ContentKaiVector`, `AutoUpdater`, `Scenes` and `Application`: no counterpart here.
