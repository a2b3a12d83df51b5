/** The string helpers of the orchestrator: trimming, lower case, decimal numbers. */
module Text {
  import opened Ordering
  import opened Wrappers

  /** Unicode White_Space, which strings.TrimSpace removes. */
  predicate IsSpace(c: char) {
    var u := c as int;
    0x9 <= u <= 0xD || u in {0x20, 0x85, 0xA0, 0x1680, 0x2028, 0x2029, 0x202F, 0x205F, 0x3000} || 0x2000 <= u <= 0x200A
  }

  function TrimSpace(s: string): string {
    if s == [] then [] else if IsSpace(s[0]) then TrimSpace(s[1..])
    else if IsSpace(Last(s)) then TrimSpace(Init(s)) else s
  }

  /** Lower case over ASCII letters. */
  function Lower(s: string): string {
    seq(|s|, i requires 0 <= i < |s| => if 'A' <= s[i] <= 'Z' then (s[i] as int + 32) as char else s[i])
  }

  function Norm(s: string): string { Lower(TrimSpace(s)) }

  predicate IsDigit(c: char) { '0' <= c <= '9' }

  function Digits(s: string): Option<nat> {
    if s == [] then Some(0)
    else if !IsDigit(Last(s)) then None
    else match Digits(Init(s))
         case None => None
         case Some(n) => Some(10 * n + (Last(s) as int - '0' as int))
  }

  /** strconv.Atoi on a 64-bit platform. */
  function Atoi(s: string): Option<int> {
    var negative := s != [] && s[0] == '-';
    var body := if s != [] && (s[0] == '-' || s[0] == '+') then s[1..] else s;
    if body == [] then None
    else match Digits(body)
         case None => None
         case Some(n) =>
           var size: int := n;
           var v := if negative then -size else size;
           if -0x8000_0000_0000_0000 <= v < 0x8000_0000_0000_0000 then Some(v) else None
  }

  /** `s` cut at the first `c`. */
  function Cut(s: string, c: char): Option<(string, string)> {
    if s == [] then None
    else if s[0] == c then Some(([], s[1..]))
    else match Cut(s[1..], c)
         case None => None
         case Some(parts) => Some(([s[0]] + parts.0, parts.1))
  }
}
