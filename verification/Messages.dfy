module Messages {
  /** One received PRIVMSG as the supervisor stores it. */
  datatype Msg = Msg(eventId: string, source: string, ts: int, kind: string, target: string, nick: string, text: string)

  /** One complete line of the message log: a message, or bytes that do not decode to one. */
  datatype Entry<+M> = Line(msg: M) | Garbage(raw: seq<int>)
}
