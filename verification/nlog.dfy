/** NLog's log levels, used only as opaque tags. */
module NLog {
  datatype LogLevel = Off | Fatal | Error | Warn | Info | Debug | Trace
}
