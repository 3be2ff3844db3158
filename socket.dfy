/** The four `readyState` values a WebSocket goes through, on the server (`ws`)
    and in the browser alike: CONNECTING (0), OPEN (1), CLOSING (2), CLOSED (3). */
module Socket {
  datatype ReadyState = CONNECTING | OPEN | CLOSING | CLOSED
}
