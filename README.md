# Image port lookup of the compose generator

The compose generator writes a Docker Compose file for a scenario. For each
agent image it needs the TCP port the container listens on. `get_image_port`
(generate_compose_fixed.py:56-113) finds that port and never fails:

1. It runs `docker inspect` on the image's exposed ports.
2. If that exits non-zero, it runs `docker pull` and then one more
   `docker inspect`.
3. It decodes the JSON output and returns the integer prefix of the first
   key (in insertion order) that contains `"/tcp"`. For example `"9008/tcp"`
   gives 9008.
4. Every other path returns `DEFAULT_PORT`, 9009 (generate_compose_fixed.py:120).
   That includes a timeout, a failed command, undecodable or empty output,
   no TCP key, and an exception caught by the broad handler.

The model has two layers and a small library of Python string built-ins:

- `PortResolver.Acquire` is the command recovery tree. It takes the outcome
  each docker command would have (`Ok(stdout)`, `NonZero`, `Timeout` or
  `LaunchError`). It returns the commands actually run, in order, and
  either the output to decode or the reason for giving up.
- `PortResolver.Interpret` and `PortResolver.ScanKeys` pick the port from
  the decoded value. The decoded value is abstract: `Malformed`, `Null`,
  `Object(keys)` with the keys in insertion order, or `NonObject(truthy)`.
- `PortResolver.GetImagePort` composes the two layers. The JSON decoder is a
  parameter (`decode: string -> Decoded`).
- `PyText` models the Python built-ins the source relies on: `sub in s`,
  `s.split("/")` and `int(s)` on a string. Its partners are `"/".join` for
  `split` and `str(n)` for `int`.
- `Resolution` is `Detected(port)` or `Defaulted(reason)`. There is one
  reason per exit branch of the source: `TimedOut`, `PullFailed`,
  `ReinspectFailed`, `Undecodable`, `NoExposedPorts`, `NoTcpPort` and
  `Unexpected`.

The port is NOT limited to 1..65535: the code performs no range check, so
`"0/tcp"` gives 0 and `"99999/tcp"` gives 99999 (`PortExamples.PortZero`,
`PortExamples.PortAboveRange`).

## Model

| member | source | states |
|---|---|---|
| PyText.Contains | generate_compose_fixed.py:98 | `"/tcp" in port_str` holds exactly when `"/tcp"` occurs at some index of the key |
| PyText.Split | generate_compose_fixed.py:99 | `str.split("/")` gives at least one piece, no piece holds the separator, and joining the pieces with it gives the key back |
| PyText.SplitHeadIsPrefixBeforeSeparator | generate_compose_fixed.py:99 | `split("/")[0]` is the prefix of the key before its first `"/"` (the whole key if there is none) |
| PyText.IsSpace | generate_compose_fixed.py:99 | the white space `int()` skips: the C-locale white space plus the non-ASCII `str.isspace()` characters, not U+001C to U+001F; it never stands for a digit, a sign or an underscore |
| PyText.TrimLeft | generate_compose_fixed.py:99 | `int()` skips leading white space: the result is the longest suffix that does not start with white space, and everything removed is white space |
| PyText.TrimRight | generate_compose_fixed.py:99 | `int()` skips trailing white space: the result is the longest prefix that does not end with white space, and everything removed is white space |
| PyText.ParseDigits | generate_compose_fixed.py:99 | the unsigned part parses exactly when it is digit groups joined by single underscores with at most 4300 digits (CPython's default `sys.int_max_str_digits`), and the value is never negative |
| PyText.ParseSigned | generate_compose_fixed.py:99 | a parsed value always comes from a digit at the front or right after the sign |
| PyText.ParseInt | generate_compose_fixed.py:99 | `int(s)` succeeds only on text that holds a digit; otherwise it stands for the `ValueError` |
| PyText.StripPadding | generate_compose_fixed.py:99 | white space that `int()` skips, of any length on both sides of the number, is ignored |
| PyText.ParseIntRoundTrip | generate_compose_fixed.py:99 | `int(str(n)) == n` for every integer of at most 4300 digits, negative ones included, with or without surrounding white space; beyond 4300 digits `int()` raises |
| PyText.ParseIntDecimal | generate_compose_fixed.py:99 | `int(str(n)) == n` for every integer of at most 4300 digits, and `int()` raises beyond |
| PortResolver.Acquire | generate_compose_fixed.py:58-89 | the first command is always the inspect; a pull runs exactly when that inspect exited non-zero; a second inspect runs exactly when the pull then succeeded; output is handed on exactly when the last command run is an inspect that succeeded; it gives up for a timeout exactly when a command run timed out, through the broad handler exactly when a command could not be launched, for a failed pull exactly when inspect and pull both exited non-zero, and for a failed second inspect exactly when it exited non-zero after a good pull |
| PortResolver.IsTcpKey | generate_compose_fixed.py:98 | `"/tcp" in port_str` holds exactly when `"/tcp"` occurs at some index of the key |
| PortResolver.PortOfKey | generate_compose_fixed.py:99 | `int(port_str.split("/")[0])` yields a port only from text that holds a digit before the key's first `"/"` |
| PortResolver.HeadDigitIsKeyDigit | generate_compose_fixed.py:99 | a digit of `split("/")[0]` is a digit of the key that precedes its first `"/"` |
| PortResolver.PortOfKeyParsesHead | generate_compose_fixed.py:99 | `int(port_str.split("/")[0])` parses exactly the text before the key's first `"/"` |
| PortResolver.RenderedKeyPort | generate_compose_fixed.py:96-99 | a key `<port>/<protocol>` gives back its port (`"9008/tcp"` gives 9008) when the port has at most 4300 digits, and `int()` raises beyond |
| PortResolver.RenderedTcpKey | generate_compose_fixed.py:98 | a key whose protocol starts with `tcp` passes the `"/tcp"` test |
| PortResolver.ScanKeys | generate_compose_fixed.py:97-104 | the scan falls back only because no key matched or because the matching key's prefix did not parse |
| PortResolver.ScanKeysFirstMatch | generate_compose_fixed.py:97-113 | the result is decided by the first key in iteration order that contains `"/tcp"`, whatever the later keys hold: its parsed prefix, or the broad handler's default when `int()` raises |
| PortResolver.ScanKeysNoTcpKey | generate_compose_fixed.py:97-104 | the scan ends with "no TCP port" exactly when no key contains `"/tcp"` |
| PortResolver.FirstTcpIndexExists | generate_compose_fixed.py:97-98 | when some key contains `"/tcp"`, a first such key exists |
| PortResolver.ScanKeysDetected | generate_compose_fixed.py:96-101 | the scan detects port p exactly when the first key containing `"/tcp"` has a prefix that parses to p |
| PortResolver.Interpret | generate_compose_fixed.py:91-113 | undecodable output is reported as such exactly when decoding failed; "no exposed ports" exactly for `null`, `{}` and other falsy values; a port is only ever detected from a non-empty object, by the key scan |
| PortResolver.Resolve | generate_compose_fixed.py:58-113 | a port is only ever detected from the output of an inspect that succeeded |
| PortResolver.DetectedComesFromTcpKey | generate_compose_fixed.py:91-101 | a detected port is the parsed prefix of a key containing `"/tcp"` in the decoded object |
| PortResolver.GetImagePort | generate_compose_fixed.py:56-113 | total: the result is `DEFAULT_PORT` or the parsed prefix of a key containing `"/tcp"` in the decoded inspect output |
| PortResolver.InspectHitSkipsPull | generate_compose_fixed.py:58-66 | after a successful first inspect nothing else runs, and the port depends only on that inspect's output |
| PortResolver.LaunchErrorGivesDefault | generate_compose_fixed.py:111-113 | a command that raises anything other than a timeout gives the default through the broad handler |
| PortResolver.PullFailureGivesDefault | generate_compose_fixed.py:66-78 | a failed inspect followed by a failed pull gives the default, and no second inspect runs |
| PortResolver.ReinspectFailureGivesDefault | generate_compose_fixed.py:80-89 | a failed inspect, a good pull and a failed second inspect give the default |
| PortResolver.ReinspectHitUsesItsOutput | generate_compose_fixed.py:79-91 | after a good pull, the second inspect's output is the one decoded |
| PortResolver.TimeoutGivesDefault | generate_compose_fixed.py:105-107 | a timeout in any command that runs gives the default |
| PortResolver.UndecodableOrFalsyGivesDefault | generate_compose_fixed.py:91-94 | undecodable output, `null`, `{}` or another falsy value gives the default |
| PortResolver.FirstTcpKeyDecides | generate_compose_fixed.py:97-113 | with an object decoded, the port is the parsed prefix of the first TCP key, or the default if that prefix does not parse |
| PortResolver.NoTcpKeyGivesDefault | generate_compose_fixed.py:103-104 | with an object decoded but no key containing `"/tcp"`, the port is the default |
| PortResolver.DetectedIff | generate_compose_fixed.py:91-101 | a port is detected exactly when an inspect succeeded, its output decodes to an object, and the first TCP key's prefix parses to that port |
| PortExamples.Key9008 | generate_compose_fixed.py:96-99 | `"9008/tcp"` contains `"/tcp"` and its prefix parses to 9008 |
| PortExamples.TcpKeyOf | generate_compose_fixed.py:98-99 | a key `<n>/tcp` with at most 4300 digits is a TCP key whose port is n |
| PortExamples.SingleTcpKey | generate_compose_fixed.py:97-101 | an object with one TCP key whose prefix parses gives that port |
| PortExamples.TcpBeforeUdp | generate_compose_fixed.py:96-101 | `{"9008/tcp": {}, "9009/udp": {}}` gives 9008 |
| PortExamples.NothingExposed | generate_compose_fixed.py:92-94 | `{}` and `null` give 9009 |
| PortExamples.UdpKeyIsNotTcp | generate_compose_fixed.py:98 | `"9009/udp"` does not contain `"/tcp"` |
| PortExamples.UdpOnly | generate_compose_fixed.py:97-104 | `{"9009/udp": {}}` gives 9009 |
| PortExamples.PortZero | generate_compose_fixed.py:99 | `"0/tcp"` gives 0: there is no range check |
| PortExamples.PortAboveRange | generate_compose_fixed.py:99 | `"99999/tcp"` gives 99999: there is no range check |
| PortExamples.HttpIsNotANumber | generate_compose_fixed.py:99 | `int("http")` raises |
| PortExamples.HttpKeyIsTcp | generate_compose_fixed.py:98 | `"http/tcp"` contains `"/tcp"` |
| PortExamples.HttpKeyHasNoPort | generate_compose_fixed.py:99 | the prefix of `"http/tcp"` does not parse |
| PortExamples.UnparseableFirstTcpKey | generate_compose_fixed.py:97-113 | `{"http/tcp": {}, "80/tcp": {}}` gives the default: the first TCP key decides, and the later `"80/tcp"` is never tried |
| PortExamples.FileSeparatorIsNotSkipped | generate_compose_fixed.py:99 | `int("\x1c80")` raises: U+001C is not white space to `int()` |
| PortExamples.InspectTimeout | generate_compose_fixed.py:58-65 | a timed-out first inspect is the only command run, and the result is the default |

## Left out

- `fetch_agent_info` (generate_compose_fixed.py:38-53) is left out. It is an HTTP request that exits the process on error and has no decision logic of its own.
- The import fallbacks for `tomli`, `tomllib`, `tomli_w` and `requests` (generate_compose_fixed.py:15-32) are environment set-up.
- Running the docker commands is not modelled. Each command's outcome is an input. The image name is only passed to those commands, so it does not appear in the model. The timeout values (30 and 300 seconds) only decide when `Timeout` happens.
- `json.loads` is not modelled. Only its possible results appear (`Decoded`). An exception from the decoder other than `JSONDecodeError` (a `RecursionError` on deeply nested input) reaches the broad handler. The model reports it as `Undecodable`; the returned port is the default either way.
- The diagnostic `print` calls only write text. The `Reason` of a `Defaulted` resolution records which of them would be printed.
- `COMPOSE_TEMPLATE`, the path constants and the rest of the generator (templating, TOML and YAML writing, command-line handling) are file I/O glue.
- PyText.ParseInt: accepts only the ASCII digits `0`-`9`. Python's `int()` also accepts other Unicode decimal digits (for example Arabic-Indic digits), so the model is stricter there. White space, signs and underscores follow `int()`.
- PyText.IntMaxStrDigits: the digit limit is fixed at CPython's default of 4300. The model does not cover changing it (`PYTHONINTMAXSTRDIGITS`, `sys.set_int_max_str_digits`, where 0 disables it). It also does not cover Python releases that predate the limit.
- The order of keys in a decoded object is taken as given: `Object(keys)` keeps the decoder's insertion order, which is what Python's `dict` iteration yields.
