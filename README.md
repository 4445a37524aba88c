# POS QR display firmware — verified model

The firmware runs an ESP32-S3 counter display. The display is a 480×480
ST7701S RGB panel with a GT911 capacitive touch controller.

- While idle, it shows a flip-card clock. The main screen shows HH:MM:SS
  over a rain background, with a rotating quote. The idle screen shows
  HH:MM on plain black.
- A point-of-sale system publishes payment QR codes over MQTT. The device
  shows each one with its amount and description until it is hidden or the
  customer taps it away.
- Tapping the idle clock shows a built-in static VietQR code. This is an
  EMVCo merchant-presented payload for a MB Bank account, closed by a
  CRC-16/CCITT-FALSE checksum that is computed at start-up.

This project models the deterministic core of that firmware in Dafny and
proves what it promises:

- the ST7701S bit-banged 3-wire SPI protocol and its register init script;
- the GT911 register access, touch polling and probing;
- the MQTT payload handling;
- the QR screen's state machine;
- the two flip clocks;
- the Wi-Fi reconnect policy;
- the idle-screen layout;
- the rain background;
- the static VietQR payload, with its TLV structure and CRC.

Modules, one per source file, plus three shared ones:

- `Util` / `AppConfig` (util.dfy) hold the C-string helpers (`strlen`,
  `strcpy`, `strncpy`, the terminated buffer) and the constants from
  `app_config.h`.
- `St7701` (lcd_st7701.dfy) models the panel driver. Every GPIO level
  change is logged on a `wire` trace. It proves that a receiver decodes the
  trace back to the exact command/data frames and register writes.
- `Gt911` (touch_gt911.dfy) models the touch driver. The I2C bus is a script
  of replies. Each transaction is logged.
- `Crc` (crc16.dfy) is `crc16_ccitt`, proved equal to the bit-serial
  CRC-16/CCITT-FALSE register.
- `VietQr` (vietqr.dfy) holds the EMVCo TLV encoding, its parser, and the
  static payload with its CRC trailer.
- `FlipCard` (flip_card.dfy) is the flip-card digit shared by both clocks.
- `Ui` (ui.dfy) is the main screen: clock tick, colon blink, quote rotation
  and the static-QR tap.
- `QrScreen` (qr_screen.dfy) is the QR screen: show, show static, hide, tap
  to dismiss.
- `MqttService` (mqtt_service.dfy) is the MQTT data handler and the shared
  QR slot.
- `WifiService` (wifi_service.dfy) is the station event handler with its
  retry budget.
- `IdleScreen` (idle_screen.dfy) is the idle HH:MM clock and its layout.
- `BgRain` (bg_rain.dfy) is the rain background's object list.

## Model

| member | source | states |
|---|---|---|
| Util.CStr | firmware/services/mqtt_service.c:44-45 | the string a NUL-terminated buffer holds has no NUL, is a prefix of the buffer, and is followed by the terminator when one exists |
| Util.Strlen | firmware/ui/ui.c:396 | `strlen` returns the index of the first NUL, and the characters before it are the C string |
| Util.Strcpy | firmware/ui/ui.c:395 | `strcpy` leaves the copied string and its terminator at the start of the buffer, so the buffer holds exactly that C string |
| Util.Padded | firmware/ui/qr_screen.c:137-139 | a zero-initialised field holding `s` has the field's length, starts with `s` and is NUL after it |
| Util.CStrPadded | firmware/ui/qr_screen.c:137-139 | reading a padded field back as a C string gives the copied string |
| Util.Strncpy | firmware/services/mqtt_service.c:44 | `strncpy` writes the first `n` characters as the truncated source followed by NUL padding, and touches nothing beyond `n` |
| Util.TwoDigits | firmware/ui/ui.c:203-204 | the `%02d` rendering of 0..99 is two decimal digits |
| Util.TwoDigitsRoundTrip | firmware/ui/ui.c:203-204 | reading the two `%02d` digits back gives the number |
| Util.DecimalValueRoundTrip | firmware/ui/ui.c:280-287 | every two-digit decimal string is the `%02d` rendering of the number it spells, so a TLV length field read back re-renders to the same two characters |
| Crc.Crc16Ccitt | firmware/ui/ui.c:291-300 | the nested shift loop over the first `len` characters returns the CRC of their low bytes |
| Crc.UpdateIsSerial | firmware/ui/ui.c:294-297 | one pass of the outer loop (XOR into the high byte, eight conditional shifts) equals clocking the byte into the bit-serial register, most significant bit first |
| Crc.Crc16IsBitSerial | firmware/ui/ui.c:291-300 | the byte-wise CRC equals the bit-serial CRC-16/CCITT-FALSE (polynomial 0x1021, initial value 0xFFFF, no reflection, no final XOR) on every input |
| Crc.CheckValues | firmware/ui/ui.c:277 | the CRC of no bytes is 0xFFFF, and the CRC of "123456789" is the catalogue check value 0x29B1 |
| VietQr.Parse | firmware/ui/ui.c:280-287 | every object the TLV parser returns has a two-digit id and a value of at most 99 characters |
| VietQr.ParseEncode | firmware/ui/ui.c:280-287 | parsing the ID/length/value encoding of well-formed data objects gives them back |
| VietQr.EncodeParse | firmware/ui/ui.c:280-287 | a string the parser accepts is re-encoded to exactly that string |
| VietQr.HexDigitsRoundTrip | firmware/ui/ui.c:397 | `%0NX` yields `N` upper-case hex digits that read back as the value |
| VietQr.Hex4RoundTrip | firmware/ui/ui.c:397 | `%04X` of a 16-bit CRC is four upper-case hex digits that read back as the CRC |
| VietQr.BaseLayout | firmware/ui/ui.c:280-287 | the static base string is the encoding of six well-formed objects (format indicator 01, initiation method 11 "static", merchant account 38, currency 704, country VN, additional data 62), then the CRC tag "6304" |
| VietQr.MerchantObjects | firmware/ui/ui.c:281-283 | field 38 holds the NAPAS AID A000000727, the beneficiary (BIN 970422, account 0973202625) and the service code QRIBFTTA, each as a nested TLV |
| VietQr.AdditionalObjects | firmware/ui/ui.c:286 | field 62 holds one purpose-of-transaction object 08 "Thanh toan tai quay" |
| VietQr.PayloadShape | firmware/ui/ui.c:280-289 | the base is 114 characters ending in "6304", and the payload is the base plus 4 hex digits: 118 characters, which fit with the terminator in the 128-byte buffer |
| VietQr.PayloadObjects | firmware/ui/ui.c:280-289 | the full payload parses as the six base objects followed by object 63 whose value is the CRC in hex |
| VietQr.AppendedCrcValid | firmware/ui/ui.c:395-397 | any string followed by the hex CRC of that string passes the CRC check |
| VietQr.PayloadCrcValid | firmware/ui/ui.c:395-397 | the static payload passes the EMVCo CRC check |
| VietQr.BaseHasNoNul | firmware/ui/ui.c:280-287 | the base literal contains no NUL, so `strlen` sees all of it |
| VietQr.WriteHex4 | firmware/ui/ui.c:397 | `snprintf(…, 5, "%04X", crc)` writes the four hex digits and a NUL at the given offset and leaves the prefix alone |
| VietQr.CopyWithCrc | firmware/ui/ui.c:395-397 | copy, `strlen`, CRC and hex append leave the prefix followed by its own CRC in hex as the buffer's C string |
| VietQr.BuildStaticQr | firmware/ui/ui.c:395-397 | the 128-byte `s_vietqr` ends up holding exactly the static payload |
| St7701.FrameRoundTrip | firmware/drivers/lcd_st7701.c:98-120 | a 9-bit frame is the DC bit followed by the byte's bits, most significant first, and decodes back to that command or data byte |
| St7701.Panel.SpiGpioInit | firmware/drivers/lcd_st7701.c:89-96 | CS and SCK are driven high (bus idle) |
| St7701.Panel.SpiWrite9Bit | firmware/drivers/lcd_st7701.c:103-120 | the wire sees CS low, nine clock cells (SCK low, SDA = bit, SCK high) for DC then D7..D0, then CS high |
| St7701.Panel.WriteCommand | firmware/drivers/lcd_st7701.c:122 | a command is a frame with DC = 0 |
| St7701.Panel.WriteData | firmware/drivers/lcd_st7701.c:123 | a parameter is a frame with DC = 1 |
| St7701.Panel.WriteRegister | firmware/drivers/lcd_st7701.c:136-138 | a register write is its command frame followed by one data frame per parameter, in order |
| St7701.Panel.SendOp | firmware/drivers/lcd_st7701.c:132-133 | a script step is either a register write or a delay, rendered on the wire in order |
| St7701.Panel.SendScript | firmware/drivers/lcd_st7701.c:129-244 | a script is its steps' waveforms, concatenated in order |
| St7701.RenderRun | firmware/drivers/lcd_st7701.c:103-123 | a receiver sampling SDA on each rising SCK edge while CS is low recovers exactly the frames sent, whatever they are |
| St7701.WaveDecodes | firmware/drivers/lcd_st7701.c:129-244 | the wire trace of any script decodes to that script's command/data/delay frames |
| St7701.RegroupFlatten | firmware/drivers/lcd_st7701.c:129-244 | grouping each command with the data frames that follow it recovers the register writes |
| St7701.ScriptDecodes | firmware/drivers/lcd_st7701.c:129-244 | the register writes and delays a panel decodes from the wire are exactly the script sent |
| St7701.InitScriptOrder | firmware/drivers/lcd_st7701.c:129-244 | the init milestones are, in order: Sleep Out, 120 ms, bank 0, bank 1, 100 ms, bank exit, COLMOD, Display ON, 20 ms. The three bank selects are 77 01 00 00 10/11/00. The positive and negative gamma tables (0xB0, 0xB1) are each written exactly once in bank 0, with 16 values. The panel ends in the standard command bank |
| St7701.InitEnds | firmware/drivers/lcd_st7701.c:131-243 | the init transfers start with Sleep Out (0x11) and a 120 ms delay, and end with the bank exit, COLMOD 0x55, Display ON (0x29) and a 20 ms delay |
| St7701.Panel.PanelInit | firmware/drivers/lcd_st7701.c:129-244 | `st7701_panel_init` puts exactly the init script on the wire |
| St7701.Panel.BacklightSet | firmware/drivers/lcd_st7701.c:250-258 | the backlight pin is driven to the requested level |
| St7701.PanelConfig | firmware/drivers/lcd_st7701.c:278-309 | the RGB panel is 480×480 with a 16-bit data bus and two frame buffers in PSRAM, and its bounce buffer is 10 whole scan lines (480 × 10 pixels) |
| St7701.Panel.LcdInit | firmware/drivers/lcd_st7701.c:264-324 | no output pointer gives INVALID_ARG with nothing touched. Otherwise the backlight goes off, the bus idles and the init script is sent. A panel-creation or panel-init error is returned as is. Success iff both succeed, and only success turns the backlight on and yields the panel configuration |
| St7701.RegisterLvgl | firmware/drivers/lcd_st7701.c:363-408 | missing arguments give INVALID_ARG, a failed semaphore gives NO_MEM, success iff every step succeeds, and the display then uses the panel's two frame buffers directly |
| Gt911.RegFraming | firmware/drivers/touch_gt911.c:37-52 | the two address bytes are the register's high byte then low byte, and the payload follows them unchanged |
| Gt911.StatusLayout | firmware/drivers/touch_gt911.c:74-75 | bit 7 of the status byte is the ready flag and the low nibble is the touch count |
| Gt911.Le16RoundTrip | firmware/drivers/touch_gt911.c:93-94 | the little-endian coordinate bytes read back as the 16-bit value |
| Gt911.Clamp | firmware/drivers/touch_gt911.c:101-102 | a coordinate is kept when on the panel and otherwise becomes the last pixel |
| Gt911.Driver.ReadReg | firmware/drivers/touch_gt911.c:37-42 | one write-then-read transaction to the register, whose error or data is returned |
| Gt911.Driver.WriteReg | firmware/drivers/touch_gt911.c:44-52 | more than 8 data bytes gives INVALID_SIZE with no transfer. Otherwise one transmit of the register address followed by the data, whose status is returned |
| Gt911.Driver.ClearStatus | firmware/drivers/touch_gt911.c:54-58 | a zero is written to the status register 0x814E |
| Gt911.Driver.ReadCb | firmware/drivers/touch_gt911.c:62-111 | the read callback performs exactly the transactions and the report of the polling model |
| Gt911.PollStatusFailure | firmware/drivers/touch_gt911.c:66-72 | a failed status read reports RELEASED after one transaction |
| Gt911.PollByStatus | firmware/drivers/touch_gt911.c:74-92 | not ready means no clear. Ready with no touches means one clear. Ready with touches means a point read followed by a clear, even when the point read fails. PRESSED iff ready, touched and the point read succeeds |
| Gt911.PollReleasedKeepsPoint | firmware/drivers/touch_gt911.c:66-91 | a RELEASED report keeps the previous coordinates |
| Gt911.PollPressedOnPanel | firmware/drivers/touch_gt911.c:93-106 | a PRESSED point is always on the 480×480 panel, and it is the little-endian point from bytes 1..4 when that lies on the panel |
| Gt911.PollExample | firmware/drivers/touch_gt911.c:62-111 | status 0x81 and point block 00 2C 01 C8 … report a press at (300, 200) |
| Gt911.InitResults | firmware/drivers/touch_gt911.c:115-179 | a bus-creation error is returned as is, and no answer at either address gives NOT_FOUND. After an answered probe, init succeeds iff adding the device succeeds, and it ends by clearing the status. The corrected version has the same results |
| Gt911.Driver.Init | firmware/drivers/touch_gt911.c:115-179 | init performs the transactions of the as-written model and returns its result |
| Gt911.InitAsWrittenUsesSilentAddress | firmware/drivers/touch_gt911.c:136-158 | when only 0x14 answers, init still adds the device at the configured address, which never answered, and reports success |
| Gt911.InitIntendedUsesAnsweredAddress | firmware/drivers/touch_gt911.c:136-158 | the corrected init only adds the device at an address whose probe was answered |
| Gt911.Driver.InitFixed | firmware/drivers/touch_gt911.c:115-179 | init with the corrected address choice performs the transactions of the intended model |
| FlipCard.FlipShows | firmware/ui/ui.c:118-150 | after a flip the card shows the new character and the active half stays 0 or 1. The half switches iff the character changed |
| FlipCard.FlipIdempotent | firmware/ui/ui.c:121 | flipping to the character already shown changes nothing |
| FlipCard.FlipBack | firmware/ui/ui.c:118-150 | flipping to a new character and back restores the card exactly |
| FlipCard.FlipDigit | firmware/ui/ui.c:118-150 | `flip_digit` updates only the given card, to the flipped card |
| FlipCard.FlipAll | firmware/ui/ui.c:204-206 | flipping every card to the text's characters leaves the row showing the text |
| FlipCard.FlipRowShows | firmware/ui/ui.c:204-206 | after a row flip the cards show the text, and each card is unchanged iff it already showed its character |
| FlipCard.FlipRowUnchanged | firmware/ui/ui.c:204-206 | flipping a row to the text it already shows changes nothing |
| FlipCard.SetAll | firmware/ui/ui.c:384-387 | the initial fill sets each card's character without flipping |
| FlipCard.SetRowShows | firmware/ui/ui.c:384-387 | after the initial fill the row shows the text and the active halves are kept |
| Ui.ClockText | firmware/ui/ui.c:203-204 | the `%02d%02d%02d` rendering of a valid time is six decimal digits |
| Ui.ClockTextReadsBack | firmware/ui/ui.c:203-204 | the six digits read back as hour, minute and second |
| Ui.ClockTextInjective | firmware/ui/ui.c:197-206 | two different times never show the same digits |
| Ui.TicksAfterOne | firmware/ui/ui.c:214-221 | one 500 ms tick advances the counter modulo 20 and rotates the quote exactly when it wraps |
| Ui.RotationEveryTenSeconds | firmware/ui/ui.c:214-221 | after `n` ticks from zero the counter is `n mod 20` and `n div 20` rotations have happened: one every ten seconds |
| Ui.NextQuote | firmware/ui/ui.c:165-171 | the next quote index stays within the 18 quotes |
| Ui.QuoteAfterIsModular | firmware/ui/ui.c:165-171 | after `k` rotations from index `i` the quote index is `(i + k) mod 18` |
| Ui.QuoteCycle | firmware/ui/ui.c:165-171 | every quote comes back after 18 rotations, and quote `j` follows quote `i` after `(j - i) mod 18` rotations |
| Ui.BuildVietQr | firmware/ui/ui.c:395-397 | the string built at start-up is the static payload, NUL-free and shorter than the 128-byte buffer |
| Ui.Clock.Init | firmware/ui/ui.c:311-412 | start-up shows the given time on six fresh cards with no flip state, zeroes the tick counter, starts on quote 0 with the colons visible, and builds the static payload |
| Ui.Clock.Tick | firmware/ui/ui.c:187-222 | each tick flips the cards to the new time (nothing changes when the time is the same), records it, toggles the colons, and advances the counter modulo 20. It requests a quote rotation iff the counter wraps |
| Ui.Clock.ShowTime | firmware/ui/ui.c:196-207 | the cards flip to the new time and it is recorded, and an unchanged time leaves the cards as they were; counters and quote are untouched |
| Ui.Clock.QuoteFadeOutDone | firmware/ui/ui.c:165-171 | at the end of a fade-out the next quote is shown |
| Ui.Clock.OnIdleTap | firmware/ui/ui.c:302-307 | a tap on the clock shows the static QR, with the static payload, no amount and the fixed description, remembers that static payload as the last one shown, and leaves the dismissal flag alone |
| MqttService.ZeroIsEmpty | firmware/services/mqtt_service.c:28 | the zero-initialised slot reads as three empty strings |
| MqttService.FieldText | firmware/services/mqtt_service.c:39-49 | a string field is read truncated to `size - 1` characters, kept whole when it fits, and missing or non-string fields read as empty |
| MqttService.JsonStr | firmware/services/mqtt_service.c:39-49 | the buffer's C string is the field's text. A string field fills the buffer as `strncpy` plus a terminator. Otherwise only the first byte becomes NUL |
| MqttService.SameBytesIsPrefixEquality | firmware/services/mqtt_service.c:36 | `memcmp` over `n` bytes is zero iff the first `n` characters agree |
| MqttService.TopicEq | firmware/services/mqtt_service.c:33-37 | a topic matches iff it has the expected length and the same characters |
| MqttService.Service.constructor | firmware/services/mqtt_service.c:28-29 | the slot starts zeroed with no QR available |
| MqttService.Service.HandleQrShow | firmware/services/mqtt_service.c:53-83 | unparsable JSON or an empty `qr_data` leaves the slot and flag untouched. Otherwise the slot holds the three truncated fields and the flag is raised |
| MqttService.Service.HandleQrHide | firmware/services/mqtt_service.c:85-92 | the flag is cleared and the slot is left as it was |
| MqttService.Service.OnData | firmware/services/mqtt_service.c:136-151 | a fragmented message is ignored. A whole one is dispatched by exact topic to show, hide or result (which changes nothing), and other topics change nothing |
| MqttService.Service.HasQrData | firmware/services/mqtt_service.c:189-192 | returns the flag, and a raised flag always comes with a non-empty QR string |
| MqttService.Service.GetQr | firmware/services/mqtt_service.c:194-197 | reads the slot as it stands at the call, with its three fixed-size fields |
| QrScreen.StaticPayload | firmware/ui/qr_screen.c:133-140 | the static payload has each field zero-filled and holding at most `size - 1` characters of its argument |
| QrScreen.StaticText | firmware/ui/qr_screen.c:133-140 | the static payload reads back as the three arguments, truncated to their fields |
| QrScreen.StaticNonZero | firmware/ui/qr_screen.c:133-140 | the static payload is all-zero iff all three arguments are empty |
| QrScreen.ZeroedCopy | firmware/ui/qr_screen.c:136-139 | the zero-initialised `strncpy` into one field yields the padded, truncated argument |
| QrScreen.Screens.Init | firmware/ui/qr_screen.c:37-100 | the screen starts idle with a zeroed snapshot, nothing dismissed and no static QR |
| QrScreen.Screens.Show | firmware/ui/qr_screen.c:102-131 | showing loads the QR screen and records the payload. The same payload as last time redraws nothing, and a new non-zero payload is displayed as its three strings. The dismissal flag is untouched |
| QrScreen.Screens.ShowStatic | firmware/ui/qr_screen.c:133-144 | the static QR is shown through the same path with the truncated arguments, and marked as static |
| QrScreen.Screens.Hide | firmware/ui/qr_screen.c:146-152 | hiding returns to idle, forgets the snapshot and clears the static mark, keeping the dismissal flag |
| QrScreen.Screens.Tap | firmware/ui/qr_screen.c:45-59 | a tap, which can only come while the QR screen is loaded (qr_screen.c:74), returns to idle with the remembered payload zeroed and the widgets' texts kept. Tapping an MQTT QR also records the dismissal; tapping a static QR leaves that flag alone |
| QrScreen.Screens.IsDismissed | firmware/ui/qr_screen.c:154-157 | returns the dismissal flag |
| QrScreen.Screens.ClearDismissed | firmware/ui/qr_screen.c:159-162 | clears the dismissal flag and nothing else |
| WifiService.StepValid | firmware/services/wifi_service.c:35-70 | every event keeps the retry count within 0..10 and issues at most one connect |
| WifiService.RunValid | firmware/services/wifi_service.c:35-70 | any sequence of events keeps the retry count within 0..10 |
| WifiService.DisconnectBurst | firmware/services/wifi_service.c:46-58 | `n` disconnects from retry count `r` issue `min(n, 10 - r)` reconnects, leave the count at `min(r + n, 10)`, and leave the station disconnected |
| WifiService.GotIpRestoresBudget | firmware/services/wifi_service.c:64-69 | after an address is obtained, a burst of disconnects again gets up to 10 reconnects |
| WifiService.Wifi.constructor | firmware/services/wifi_service.c:30-31 | the state starts disconnected with no retries |
| WifiService.Wifi.HandleEvent | firmware/services/wifi_service.c:35-70 | STA_START connects. DISCONNECTED clears the flag and reconnects while fewer than 10 retries were made. GOT_IP resets the retry count and sets the flag. Other events change nothing |
| WifiService.Wifi.IsConnected | firmware/services/wifi_service.c:125-128 | returns the connection flag |
| IdleScreen.Layout | firmware/ui/idle_screen.c:199-218 | the four 90×120 cards lie on screen at x = 21, 119, 271, 369, y = 180. Cards in a pair are 8 px apart, and the 30 px slot reserved for the colon starts at x = 225, with 16 px gaps, and is centred on screen. The group is centred horizontally and vertically |
| IdleScreen.OriginValues | firmware/ui/idle_screen.c:32-200 | the group is 438 px wide and starts at (21, 180) |
| IdleScreen.HourMinText | firmware/ui/idle_screen.c:130 | the `%02d%02d` rendering of a valid hour and minute fills the four cards |
| IdleScreen.HourMinTextInjective | firmware/ui/idle_screen.c:116-135 | two different times never show the same four digits |
| IdleScreen.Clock.Init | firmware/ui/idle_screen.c:184-238 | start-up lays out the four cards and shows the given time with no flip state |
| IdleScreen.Clock.TimeCheck | firmware/ui/idle_screen.c:116-135 | an unchanged hour and minute change nothing. Otherwise the cards flip to the new time and it is recorded |
| IdleScreen.Clock.Show | firmware/ui/idle_screen.c:240-244 | showing loads the idle screen and keeps the recorded time |
| BgRain.Dot | firmware/ui/bg_rain.c:46-59 | a light dot is round, with equal width and height |
| BgRain.DotCentred | firmware/ui/bg_rain.c:46-59 | each dot is centred on its light's coordinates |
| BgRain.DotsOnScreen | firmware/ui/bg_rain.c:30-59 | all ten light dots lie on the 480×480 screen |
| BgRain.StreakRanges | firmware/ui/bg_rain.c:63-75 | streak `i` has x in [0, 480), y in [0, 300), height in [40, 160) and opacity in [15, 45). It ends above y = 460 and lies on screen |
| BgRain.SceneShape | firmware/ui/bg_rain.c:16-86 | the scene has 72 objects: a full-screen base first, then 10 dots and 60 streaks, then a full-screen fog last, all on screen |
| BgRain.BgRainCreate | firmware/ui/bg_rain.c:16-86 | `bg_rain_create` creates exactly the scene's objects, in order |

## Left out

- LVGL objects, styles, animations, fonts and the QR-code widget are not
  modelled. A screen is its state, and the text it displays is the strings
  it was given.
- The frame-buffer swap, the VSYNC interrupt and its semaphore, and the
  LVGL flush callback (lcd_st7701.c:330-361) are concurrency and DMA.
  `St7701.RegisterLvgl` keeps only the argument checks, the result and the
  buffer count.
- GPIO directions and the real timing of `vTaskDelay` and of the bit-banged
  clock are not modelled. A delay is a `Pause` event on the trace.
- The RGB timings (pixel clock, porches, pulse widths) are carried as
  numbers in `St7701.PanelConfig`, not checked against the panel.
- `esp_lcd_new_rgb_panel` and `esp_lcd_panel_init` are foreign calls. Their
  outcomes are parameters of `St7701.Panel.LcdInit`.
- The I2C bus is a script of replies. Probe timeouts and bus speed are not
  modelled, and `APP_TOUCH_*` (address, pins, frequency) are parameters.
- Gt911.Fit: a reply shorter or longer than requested is cut or extended to
  the requested length. On real hardware the driver always gets exactly
  what it asked for.
- `touch_gt911_register_lvgl` (touch_gt911.c:181-196) only registers a
  callback with LVGL.
- The `[A]`/`[B]` log lines in the read callback and all other logging are
  not modelled.
- cJSON is not part of this model. An incoming payload is already parsed
  into a map from keys to string or non-string values, and `None` stands
  for unparsable JSON.
- MqttService.JsonStr: for a missing or non-string key only the first byte
  of the buffer is specified. The rest of that stack buffer is unspecified
  in the source and is left as it was.
- `handle_result` (mqtt_service.c:94-110) only logs, so it changes nothing
  in the model.
- `mqtt_service_init` and the client lifecycle (connect, subscribe,
  reconnect events) are not modelled.
- `APP_MQTT_TOPIC_QR_SHOW` and `APP_MQTT_TOPIC_QR_HIDE` are not defined in
  `app_config.h`, so they are parameters of
  `MqttService.Service.OnData`.
- The critical section around the shared QR slot is treated as atomic,
  because each method of `MqttService.Service` runs as one step.
- MqttService.Service.GetQr: the source returns a pointer to the live
  static slot, which a later `handle_qr_show` overwrites. The model returns
  a snapshot, so the aliasing is not captured. A read by the caller that
  overlaps a write is not modelled either; the source takes no lock on
  the reading side, so such a read can see a half-written slot.
- MqttService.FieldText, MqttService.JsonStr, QrScreen.StaticPayload: one
  `char` stands for one C byte. UTF-8 text is therefore an input given as
  its byte sequence, and the model does not relate it to Unicode
  characters. A truncation at `size - 1` bytes that cuts a multi-byte
  sequence in half is modelled as the byte cut the C code makes, but it
  is not flagged as producing invalid UTF-8.
- `mqtt_service_get_qr_gen` is declared in mqtt_service.h:53 but has no
  definition, so there is nothing to model.
- `ui_router.h` and `qr_service.h` only declare functions that are not
  defined here.
- Wi-Fi and NVS initialisation (`wifi_service_init`) are platform calls.
  Only the event handler's state is modelled.
- time_service is not part of this model. The local time is an input to
  the clock ticks and initialisers.
- main.c is not part of this model.
- QrScreen.Screens.Show: after `qr_screen_hide` the snapshot is zeroed, so
  showing an all-zero payload skips the redraw and leaves the old QR text on
  screen. The contract promises the displayed text only for non-zero
  payloads.
- BgRain: the base's vertical gradient colour is not modelled. Only its
  main colour and size are.
- `quote_fade_in` and the fade animations are not modelled.
  `Ui.Clock.Tick` returns whether a rotation is due, and
  `Ui.Clock.QuoteFadeOutDone` is the state change at the end of the fade.
- Ui.Clock keeps `s_vietqr` as the C string it holds, not as the 128-byte
  buffer. `Ui.BuildVietQr` proves the buffer holds that string.
- `St7701.Panel.PanelInit` sends its register writes from a table through
  one loop. The source writes them as straight-line calls; the frames on
  the wire are the same.

## Findings

| source | as written | input that shows it | evidently intended | confidence | as-written member | corrected member |
|---|---|---|---|---|---|---|
| firmware/drivers/touch_gt911.c:136-158 | after the probe at the configured address fails and the alternate address 0x14 answers, the device is still added at the configured address | the configured-address probe times out and the 0x14 probe succeeds | add the device at the address that answered (0x14) | not executed | Gt911.InitAsWrittenUsesSilentAddress | Gt911.InitIntendedUsesAnsweredAddress |
