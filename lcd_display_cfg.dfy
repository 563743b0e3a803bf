/** Build-time configuration of the displays: sizes and pin assignments. */
module LcdDisplayCfg {
  import opened Dio

  /** Number of data lines of the 4-bit interface (LCD_DISPLAY_BITLEN). */
  const BitLen: nat := 4

  /** Bytes of command/data storage per display (LCD_DISPLAY_BUFF_SIZE). */
  const BufferSize: nat := 40

  /** Number of displays on the system (LCD_DISPLAY_MAX). */
  const DisplayCount: nat := 1

  /** A display handle; valid when below DisplayCount. */
  type Display = nat

  /** The pins of one display (LcdDisplayConfig_t). */
  datatype DisplayConfig = DisplayConfig(display: Display, rs: Channel, en: Channel, data: seq<Channel>)

  /** A configuration record has exactly one data channel per interface line. */
  predicate WellFormed(cfg: DisplayConfig) {
    |cfg.data| == BitLen
  }

  /** The enable pin is not shared with the register-select or data pins. */
  predicate SeparateEnable(cfg: DisplayConfig) {
    cfg.en != cfg.rs && cfg.en !in cfg.data
  }

  /** A configuration table pointer, which may be null. */
  datatype Option<T> = None | Some(value: T)
}
