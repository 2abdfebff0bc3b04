/** The Ascension MotionStar tracker driver's configuration
    (gadget::MotionStar): integer codes from the configuration chunk are
    converted to the driver's enumerations, and every setting is refused
    while the device is sampling. */
module MotionStarDevice {
  import opened Bytes
  import opened Text

  datatype Protocol = TCP | UDP

  datatype Hemisphere =
    | FrontHemisphere | RearHemisphere | UpperHemisphere
    | LowerHemisphere | LeftHemisphere | RightHemisphere

  datatype BirdFormat =
    | NoBirdData | Position | Angles | Matrix | PositionAngles
    | PositionMatrix | Quaternion | PositionQuaternion

  datatype RunMode = Continuous | SingleShot

  /** The settings of the underlying MotionStarStandalone, whose setters are
      not part of this model and are taken to store their argument. */
  datatype Settings = Settings(
    address: string,
    port: int,
    protocol: Protocol,
    master: bool,
    hemisphere: Hemisphere,
    birdFormat: BirdFormat,
    numBirds: int,
    runMode: RunMode,
    reportRate: int,
    measurementRate: real)

  /** The properties of a MotionStar configuration chunk, as the chunk's
      getProperty calls return them. */
  datatype MotionStarChunk = MotionStarChunk(
    address: string,
    serverPort: int,
    serverType: bool,
    hemisphere: int,
    num: int,
    bformat: int,
    mode: int,
    reportRate: int,
    measurementRate: real)

  // ---------------------------------------------------------------------
  // Code tables

  /** The protocol a server port implies: 5000 is the UDP port, 6000 the TCP
      port, and any other port falls back to TCP. */
  function ProtocolOfPort(port: int): (p: Protocol)
    ensures p == UDP <==> port == 5000
  {
    if port == 5000 then UDP else TCP
  }

  function HemisphereOf(code: int): (h: Hemisphere)
    ensures !(0 <= code <= 5) ==> h == FrontHemisphere
  {
    match code
    case 0 => FrontHemisphere
    case 1 => RearHemisphere
    case 2 => UpperHemisphere
    case 3 => LowerHemisphere
    case 4 => LeftHemisphere
    case 5 => RightHemisphere
    case _ => FrontHemisphere
  }

  /** The code of each hemisphere in the configuration. */
  function HemisphereCode(h: Hemisphere): (code: int)
    ensures 0 <= code <= 5
  {
    match h
    case FrontHemisphere => 0
    case RearHemisphere => 1
    case UpperHemisphere => 2
    case LowerHemisphere => 3
    case LeftHemisphere => 4
    case RightHemisphere => 5
  }

  /** The hemisphere table is a bijection between 0..5 and the hemispheres,
      with every other code read as the front hemisphere. */
  lemma HemisphereTable(h: Hemisphere, code: int)
    ensures HemisphereOf(HemisphereCode(h)) == h
    ensures 0 <= code <= 5 ==> HemisphereCode(HemisphereOf(code)) == code
  {
  }

  function BirdFormatOf(code: int): (f: BirdFormat)
    ensures code == 6 || !(0 <= code <= 8) ==> f == PositionAngles
  {
    match code
    case 0 => NoBirdData
    case 1 => Position
    case 2 => Angles
    case 3 => Matrix
    case 4 => PositionAngles
    case 5 => PositionMatrix
    case 6 => PositionAngles
    case 7 => Quaternion
    case 8 => PositionQuaternion
    case _ => PositionAngles
  }

  /** The code of each bird format in the configuration; 6 is not used. */
  function BirdFormatCode(f: BirdFormat): (code: int)
    ensures 0 <= code <= 8 && code != 6
  {
    match f
    case NoBirdData => 0
    case Position => 1
    case Angles => 2
    case Matrix => 3
    case PositionAngles => 4
    case PositionMatrix => 5
    case Quaternion => 7
    case PositionQuaternion => 8
  }

  /** The format table is a bijection between the codes 0..5, 7, 8 and the
      formats; 6 and every other code read as position and angles. */
  lemma BirdFormatTable(f: BirdFormat, code: int)
    ensures BirdFormatOf(BirdFormatCode(f)) == f
    ensures 0 <= code <= 8 && code != 6 ==> BirdFormatCode(BirdFormatOf(code)) == code
  {
  }

  function RunModeOf(code: int): (m: RunMode)
    ensures m == SingleShot <==> code == 1
  {
    if code == 1 then SingleShot else Continuous
  }

  function RunModeCode(m: RunMode): (code: int)
    ensures code == 0 || code == 1
  {
    match m
    case Continuous => 0
    case SingleShot => 1
  }

  lemma RunModeTable(m: RunMode, code: int)
    ensures RunModeOf(RunModeCode(m)) == m
    ensures (code == 0 || code == 1) ==> RunModeCode(RunModeOf(code)) == code
  {
  }

  /** The settings config writes when the device is not active: each
      integer property goes through the cast of the setter's parameter type
      first (unsigned short for the port, unsigned char for the hemisphere
      and the report rate, unsigned int for the others), and the address
      through c_str(). */
  function Configured(c: MotionStarChunk): (s: Settings)
    ensures 0 <= s.port < U16_LIMIT && 0 <= s.reportRate < U8_LIMIT && IsU32(s.numBirds)
    ensures s.protocol == ProtocolOfPort(s.port)
  {
    var port := ToU16(c.serverPort);
    Settings(
      CString(c.address),
      port,
      ProtocolOfPort(port),
      c.serverType,
      HemisphereOf(ToU8(c.hemisphere)),
      BirdFormatOf(ToU32(c.bformat)),
      ToU32(c.num),
      RunModeOf(ToU32(c.mode)),
      ToU8(c.reportRate),
      c.measurementRate)
  }

  /** The casts wrap: a port of 70536 is taken as 5000 and selects UDP, a
      hemisphere of 257 is the rear hemisphere, and a negative format, run
      mode or hemisphere falls back to the default. */
  lemma ConfiguredWraps(c: MotionStarChunk)
    ensures c.serverPort == 5000 + U16_LIMIT ==> Configured(c).port == 5000 && Configured(c).protocol == UDP
    ensures c.hemisphere == 257 ==> Configured(c).hemisphere == RearHemisphere
    ensures c.hemisphere == -1 ==> Configured(c).hemisphere == FrontHemisphere
    ensures c.bformat == -1 ==> Configured(c).birdFormat == PositionAngles
    ensures c.mode == -1 ==> Configured(c).runMode == Continuous
    ensures c.num == -1 ==> Configured(c).numBirds == U32_LIMIT - 1
  {
  }

  // ---------------------------------------------------------------------
  // The driver object

  class MotionStar {
    /** isActive(): whether the device is sampling. */
    var active: bool
    var settings: Settings

    constructor (s: Settings)
      ensures !active && settings == s
    {
      active := false;
      settings := s;
    }

    method SetAddressName(n: string)
      modifies this
      ensures active == old(active)
      ensures settings == if old(active) then old(settings) else old(settings).(address := n)
    {
      if !active {
        settings := settings.(address := n);
      }
    }

    method SetProtocol(proto: Protocol)
      modifies this
      ensures active == old(active)
      ensures settings == if old(active) then old(settings) else old(settings).(protocol := proto)
    {
      if !active {
        settings := settings.(protocol := proto);
      }
    }

    /** Stores the port and selects the protocol it implies. */
    method SetServerPort(port: int)
      requires 0 <= port < U16_LIMIT
      modifies this
      ensures active == old(active)
      ensures settings == if old(active) then old(settings)
                          else old(settings).(port := port, protocol := ProtocolOfPort(port))
    {
      if !active {
        settings := settings.(port := port);
        if port == 5000 {
          SetProtocol(UDP);
        } else if port == 6000 {
          SetProtocol(TCP);
        } else {
          settings := settings.(protocol := TCP);
        }
      }
    }

    method SetMasterStatus(master: bool)
      modifies this
      ensures active == old(active)
      ensures settings == if old(active) then old(settings) else old(settings).(master := master)
    {
      if !active {
        settings := settings.(master := master);
      }
    }

    method SetHemisphere(hemisphere: int)
      requires 0 <= hemisphere < U8_LIMIT
      modifies this
      ensures active == old(active)
      ensures settings == if old(active) then old(settings)
                          else old(settings).(hemisphere := HemisphereOf(hemisphere))
    {
      if !active {
        var h;
        match hemisphere {
          case 0 => h := FrontHemisphere;
          case 1 => h := RearHemisphere;
          case 2 => h := UpperHemisphere;
          case 3 => h := LowerHemisphere;
          case 4 => h := LeftHemisphere;
          case 5 => h := RightHemisphere;
          case _ => h := FrontHemisphere;
        }
        settings := settings.(hemisphere := h);
      }
    }

    method SetBirdFormat(format: int)
      requires IsU32(format)
      modifies this
      ensures active == old(active)
      ensures settings == if old(active) then old(settings)
                          else old(settings).(birdFormat := BirdFormatOf(format))
    {
      if !active {
        var f;
        match format {
          case 0 => f := NoBirdData;
          case 1 => f := Position;
          case 2 => f := Angles;
          case 3 => f := Matrix;
          case 4 => f := PositionAngles;
          case 5 => f := PositionMatrix;
          case 6 => f := PositionAngles;
          case 7 => f := Quaternion;
          case 8 => f := PositionQuaternion;
          case _ => f := PositionAngles;
        }
        settings := settings.(birdFormat := f);
      }
    }

    method SetNumBirds(i: int)
      requires IsU32(i)
      modifies this
      ensures active == old(active)
      ensures settings == if old(active) then old(settings) else old(settings).(numBirds := i)
    {
      if !active {
        settings := settings.(numBirds := i);
      }
    }

    method SetRunMode(mode: int)
      requires IsU32(mode)
      modifies this
      ensures active == old(active)
      ensures settings == if old(active) then old(settings) else old(settings).(runMode := RunModeOf(mode))
    {
      if !active {
        if mode == 0 {
          settings := settings.(runMode := Continuous);
        } else if mode == 1 {
          settings := settings.(runMode := SingleShot);
        } else {
          settings := settings.(runMode := Continuous);
        }
      }
    }

    method SetReportRate(rate: int)
      requires 0 <= rate < U8_LIMIT
      modifies this
      ensures active == old(active)
      ensures settings == if old(active) then old(settings) else old(settings).(reportRate := rate)
    {
      if !active {
        settings := settings.(reportRate := rate);
      }
    }

    method SetMeasurementRate(rate: real)
      modifies this
      ensures active == old(active)
      ensures settings == if old(active) then old(settings) else old(settings).(measurementRate := rate)
    {
      if !active {
        settings := settings.(measurementRate := rate);
      }
    }

    /** config: succeeds exactly when both base configurations do
        (Input::config and Position::config, which are not part of this
        model, with the second only tried when the first succeeds); only
        then, and only when the device is not active, are the settings
        written. */
    method Config(c: MotionStarChunk, inputOk: bool, positionOk: bool) returns (retval: bool)
      modifies this
      ensures retval == (inputOk && positionOk)
      ensures active == old(active)
      ensures settings == if retval && !old(active) then Configured(c) else old(settings)
    {
      retval := false;
      if inputOk && positionOk {
        SetAddressName(CString(c.address));
        SetServerPort(ToU16(c.serverPort));
        SetMasterStatus(c.serverType);
        SetHemisphere(ToU8(c.hemisphere));
        SetNumBirds(ToU32(c.num));
        SetBirdFormat(ToU32(c.bformat));
        SetRunMode(ToU32(c.mode));
        SetReportRate(ToU8(c.reportRate));
        SetMeasurementRate(c.measurementRate);
        retval := true;
      }
    }
  }
}
