/** The baud mapper `SerialIO::getBaudFromInt`: a total map from an integer
    rate to a termios line-speed constant, clamping unknown rates. */
module Baud {

  /** The termios line-speed constants the mapper can produce. */
  datatype Speed =
    | B0 | B50 | B75 | B110 | B134 | B150 | B200 | B300 | B1200 | B1800
    | B2400 | B4800 | B9600 | B19200 | B38400 | B57600 | B115200 | B230400

  /** The rates the mapper recognises. */
  const SupportedRates: set<int> :=
    {0, 50, 75, 110, 134, 150, 200, 300, 1200, 1800,
     2400, 4800, 9600, 19200, 38400, 57600, 115200, 230400}

  /** The constant every unlisted rate is clamped to. */
  const MaxSpeed: Speed := B230400

  /** The rate, in baud, that a constant stands for. */
  function Rate(s: Speed): (r: int)
    ensures r in SupportedRates
  {
    match s
    case B0 => 0
    case B50 => 50
    case B75 => 75
    case B110 => 110
    case B134 => 134
    case B150 => 150
    case B200 => 200
    case B300 => 300
    case B1200 => 1200
    case B1800 => 1800
    case B2400 => 2400
    case B4800 => 4800
    case B9600 => 9600
    case B19200 => 19200
    case B38400 => 38400
    case B57600 => 57600
    case B115200 => 115200
    case B230400 => 230400
  }

  /** A listed rate selects the constant standing for exactly that rate; any
      other integer is clamped to the maximum speed, never an error. */
  function BaudFromInt(baud: int): (r: Speed)
    ensures baud in SupportedRates ==> Rate(r) == baud
    ensures baud !in SupportedRates ==> r == MaxSpeed
  {
    match baud
    case 0 => B0
    case 50 => B50
    case 75 => B75
    case 110 => B110
    case 134 => B134
    case 150 => B150
    case 200 => B200
    case 300 => B300
    case 1200 => B1200
    case 1800 => B1800
    case 2400 => B2400
    case 4800 => B4800
    case 9600 => B9600
    case 19200 => B19200
    case 38400 => B38400
    case 57600 => B57600
    case 115200 => B115200
    case 230400 => B230400
    case _ => B230400
  }
}
