# Beat-Byte firmware: a Dafny model of its scheduling and string rules

Beat-Byte is firmware for a small ESP32 media player with an SPI LCD, a UART
keypad, an SD card and an LVGL user interface. This project models the small
sequential rules in that firmware and proves properties of them:

- **Refresh task** (`lvgl_port_task` in `main/gui/gui.c`). Each pass takes the
  LVGL API lock, runs `lv_timer_handler`, releases the lock, raises the
  suggested delay to at least `1000 / CONFIG_FREERTOS_HZ` ms, then caps it
  at 500 ms, and sleeps.
  Module `RefreshScheduler` holds the clamp. Module `GuiPort` holds a `Port`
  object with a ghost lock flag, LVGL's logical clock, the display's
  "flushing" flag and a trace of everything the port does.
- **Tick and transfer-done callbacks**. The tick timer adds
  `LVGL_TICK_PERIOD_MS` = 2 to the clock. The panel's transfer-done event
  marks the display flush-ready. Both arrive as discrete interrupts while the
  task sleeps.
- **Flush callback** (`lvgl_flush_cb`). Module `FlushRegion` proves that the
  byte-swap count and the half-open rectangle handed to the panel cover the
  same pixels.
- **UART keypad read callback** (`uart_indev_read_cb`). Module `Keypad` has a
  pure step function over the receive buffer and the input record, and a
  method that updates objects in place as the C code does.
- **Simulator loop** (`sim/main_sim.c`). Module `SimLoop` replaces LVGL's
  "no timer ready" value by the default period, applies no clamp, and uses
  `uint32_t` wrap-around in the microsecond product.
- **Bluetooth device list** (`ui/bt_device_list.c`). Module `BtDeviceList`
  has the bounds-checked lookup and the loop that adds one label per device.
- **SD card strings** (`main/peripherals/sd_card.c`). Module `SdCard` models
  `strlen`, `strcpy`, `strcat`, `strchr` and `fgets` on explicit
  character arrays. It covers building the version file's path, reading one
  line and cutting it at the newline.

The endless `while (1)` loops are modelled as methods that run a finite
prefix of the loop. The inputs of each pass are given as a sequence: the
delay the render engine returns, the areas it flushes, and the interrupts
that arrive during the sleep. Values defined outside the modelled sources
are parameters:

- `CONFIG_FREERTOS_HZ` (with `HZ > 0`), from the ESP-IDF build configuration;
- `LV_NO_TIMER_READY` and `LV_DEF_REFR_PERIOD`, from LVGL;
- whether a UART read or an `fopen` succeeds;
- the contents of a file.

Three consequences of the code that the model makes explicit:

- With `MIN = 1000 / HZ` in integer division, `HZ = 1` gives a minimum of
  1000 > 500, and max-then-min makes every sleep exactly 500. So
  `MIN <= sleep` holds only when `MIN <= 500` (`Clamp`'s contract and
  `ClampAtOneHertz`).
- For `HZ > 1000` the minimum is 0, so a zero suggestion sleeps zero.
- `lv_timer_handler` returns `uint32_t`, so a suggested delay is never
  negative; the model's input is a `uint32`.

## Model

| member | source | states |
|---|---|---|
| CTypes.MulU32 | main/gui/gui.c:57 | `uint32_t` product: exact below 2^32, and always congruent to the exact product modulo 2^32 |
| SystemConfig.LvglTaskMinDelayMs | main/system_config.h:53 | the minimum delay is the integer quotient 1000 / HZ: at most 1000, with `r*HZ <= 1000 < (r+1)*HZ` |
| RefreshScheduler.Clamp | main/gui/gui.c:54-56 | the sleep is at most 500; it is at least MIN when MIN <= 500; it is exactly 500 when MIN > 500; a delay already in the band passes unchanged |
| RefreshScheduler.ClampIdempotent | main/gui/gui.c:54-56 | clamping a clamped delay changes nothing |
| RefreshScheduler.ClampFixedPoints | main/gui/gui.c:54-56 | with a non-empty band, the clamp leaves `d` unchanged if and only if `MIN <= d <= 500` |
| RefreshScheduler.ClampIsNearestInBand | main/gui/gui.c:54-56 | independent definition: the clamped delay is the point of the band nearest to the suggestion |
| RefreshScheduler.ClampEdgeValues | main/gui/gui.c:54-56 | when MIN <= 500, a 0 return sleeps MIN; every return of 500 or more, including the all-ones idle value, sleeps 500 |
| RefreshScheduler.ClampAtOneHertz | main/system_config.h:52-53 | at 1 Hz the minimum is 1000 and every sleep is exactly 500 |
| RefreshScheduler.SleepMicros | main/gui/gui.c:57 | `1000 * ms` as `uint32_t`: exact up to 4294967 ms, and congruent to the exact product modulo 2^32 |
| RefreshScheduler.ClampedSleepDoesNotWrap | main/gui/gui.c:57 | `1000 * d` of a clamped delay does not wrap and is at most 500000 microseconds |
| FlushRegion.SwapCount | main/gui/gui.c:71 | a well-formed area counts at least one pixel; a one-column area counts its rows and a one-row area its columns |
| FlushRegion.PanelRect | main/gui/gui.c:74 | the panel rectangle starts at the area's first corner, and its width and height are the counts used for the swap |
| FlushRegion.SwapCountMatchesPanelRect | main/gui/gui.c:71-74 | the swap count equals the number of pixels of the half-open panel rectangle, and those are exactly the pixels of the inclusive area |
| GuiPort.Port.IncreaseLvglTick | main/gui/gui.c:39-43 | a tick adds exactly 2 ms to the logical clock and changes nothing else |
| GuiPort.Port.NotifyLvglFlushReady | main/gui/gui.c:29-37 | the transfer-done callback only clears the flushing flag and returns false |
| GuiPort.Port.LvglFlushCb | main/gui/gui.c:61-75 | under the lock: one swap of SwapCount pixels, then one panel draw of PanelRect; the transfer stays pending (the callback never signals completion) |
| GuiPort.Port.AcquireLock | main/gui/gui.c:50 | the lock is taken only when free |
| GuiPort.Port.ReleaseLock | main/gui/gui.c:52 | the lock is released only when held |
| GuiPort.Port.TimerHandler | main/gui/gui.c:51 | under the lock, the handler flushes its areas in order and returns the engine's delay |
| GuiPort.Port.Usleep | main/gui/gui.c:57 | the sleep requires the lock to be free; the ticks during it advance the clock by TickMs; a transfer-done event clears the flushing flag |
| GuiPort.TickMsPerFiring | main/gui/gui.c:42 | the clock advance of a run of interrupts is 2 ms times the number of tick firings |
| GuiPort.StepOps | main/gui/gui.c:49-58 | one pass's trace: the lock is taken first; after the flushes come the handler's return, the release and a sleep of exactly 1000 times the clamped delay, at most 500000 microseconds; then the interrupts |
| GuiPort.Port.PortTaskStep | main/gui/gui.c:49-58 | one pass: acquire, handler, release, clamp, sleep; the trace is StepOps and the lock is free afterwards |
| GuiPort.Port.LvglPortTask | main/gui/gui.c:45-59 | a run of passes yields TaskOps, the lock is free at the end, the clock advances by TickMs of all the run's interrupts, and the flushing flag is FlushingAfterSteps of the run |
| GuiPort.FlushingNeedsFlush | main/gui/gui.c:29-75 | the flushing flag is set after a run only if it was set before or some pass flushed an area |
| GuiPort.TaskOpsDisciplined | main/gui/gui.c:50-57 | in every run the lock is taken only when free and released only when held; handler and flushes run under it; no sleep happens while it is held |
| GuiPort.TaskOpsTally | main/gui/gui.c:42 | each pass makes exactly one `lv_timer_handler` call; the clock advance is 2 ms times the number of tick firings, however they are spread over passes |
| GuiPort.TaskOpsSleepsInBand | main/gui/gui.c:54-57 | every sleep is a whole number of milliseconds, at most 500000 microseconds, and at least 1000*MIN when MIN <= 500 |
| Keypad.KeyFor | main/gui/gui.c:92-125 | w/W, s/S, a/A, d/D, CR/LF and 27 map to PREV, NEXT, LEFT, RIGHT, ENTER and ESC, each in both directions; every other byte maps to nothing |
| Keypad.ReadCb | main/gui/gui.c:77-137 | one call consumes at most the first byte; the key changes only to the key of a mapped byte just read, which is then pressed; after a read the continue flag says whether bytes remain |
| Keypad.ReadCbOnByte | main/gui/gui.c:86-130 | a successful read consumes exactly the first byte; a mapped byte presses its key; other bytes leave state and key; continue is set if and only if more than one byte was buffered |
| Keypad.ReadCbNothingRead | main/gui/gui.c:81-136 | an empty buffer or a failed read consumes nothing, sets Released and leaves key and continue untouched |
| Keypad.ReadCbPressedIff | main/gui/gui.c:77-137 | Pressed afterwards if and only if a byte was read and it was mapped or the state was already Pressed |
| Keypad.DrainEmptiesBuffer | main/gui/gui.c:127-129 | successive calls while continue is set end with continue cleared and, when the last byte is mapped, that byte's key pressed |
| Keypad.UartRx.ReadOneByte | main/gui/gui.c:86 | a successful one-byte read pops the head of the buffer; a failed one leaves it |
| Keypad.UartIndevReadCb | main/gui/gui.c:77-137 | the in-place callback leaves buffer and record exactly as ReadCb says |
| SimLoop.SimSleepMs | sim/main_sim.c:22-25 | the sentinel sleeps the default period; any other return sleeps unchanged, with no clamp |
| SimLoop.SimSleepMicros | sim/main_sim.c:26 | `ms * 1000` as `uint32_t`: exact up to 4294967 ms, and congruent to the exact product modulo 2^32 |
| SimLoop.SimSleepMicrosWraps | sim/main_sim.c:26 | the `uint32_t` product is exact if and only if the sleep is at most 4294967 ms |
| SimLoop.SimSleepWrapExample | sim/main_sim.c:26 | a 4294968 ms return sleeps 704 microseconds |
| SimLoop.SimDiffersFromFirmware | sim/main_sim.c:22-26 | for 0 < HZ <= 1000 (and `LV_NO_TIMER_READY` other than 0 and 10000): a 0 return sleeps 0 in the simulator but at least 1 ms on the device; 10000 sleeps 10000 against 500 |
| SimLoop.LoopOpsShape | sim/main_sim.c:19-27 | the loop alternates one handler call and one sleep per pass, the sleep derived from that pass's return |
| SimLoop.Simulator.RunSimulator | sim/main_sim.c:9-28 | `lv_init`, `sdl_hal_init(240, 320)` and `create_ui` in that order, then the loop |
| BtDeviceList.GetBtDevice | ui/bt_device_list.c:53-56 | `id < 3` gives `bt_devices[id]`; `id >= 3` gives a null pointer |
| BtDeviceList.GetBtDeviceDomain | ui/bt_device_list.c:53-56 | the lookup succeeds exactly on the table's indices, and only with table entries |
| BtDeviceList.LvObj.AddLabel | ui/bt_device_list.c:47-48 | creating a label and setting its text appends that text under the parent |
| BtDeviceList.LvBtDeviceListCreate | ui/bt_device_list.c:39-51 | the loop stops at id 3 after adding exactly 3 labels, whose texts are the devices in index order |
| SdCard.IndexOf | main/peripherals/sd_card.c:47 | the position found is the first occurrence |
| SdCard.Strlen | main/peripherals/sd_card.c:114 | the length is the number of characters before the first NUL |
| SdCard.Strcpy | main/peripherals/sd_card.c:115 | after the copy the buffer holds the source string; bytes past its terminator are untouched |
| SdCard.Strcat | main/peripherals/sd_card.c:116 | with every write in bounds, the buffer holds the old string followed by the appended one; bytes past the new terminator are untouched |
| SdCard.Strchr | main/peripherals/sd_card.c:47 | null exactly when the string holds no such character; otherwise the first position |
| SdCard.TrimNewline | main/peripherals/sd_card.c:47-50 | the result has no newline and is a prefix of the line; a line with no newline is unchanged; otherwise the result stops just before the first newline |
| SdCard.TrimNewlineIdempotent | main/peripherals/sd_card.c:47-50 | trimming twice is trimming once |
| SdCard.TrimNewlineIsLongestClean | main/peripherals/sd_card.c:47-50 | independent definition: every newline-free prefix is no longer than the trimmed line |
| SdCard.StripNewline | main/peripherals/sd_card.c:47-50 | overwriting the first newline with NUL leaves the trimmed line as the buffer's string; only that one byte changes, and a line with no newline leaves the buffer unchanged |
| SdCard.FgetsLine | main/peripherals/sd_card.c:42-43 | at most 63 characters, a prefix of the content, no newline before the end, and one ending in a newline when stopped early |
| SdCard.Fgets | main/peripherals/sd_card.c:43 | fgets stores FgetsLine and a NUL; at end of file it fails and leaves the buffer alone |
| SdCard.ReadFile | main/peripherals/sd_card.c:34-54 | ESP_FAIL exactly when fopen fails; otherwise the logged text is the first line cut at its newline |
| SdCard.WriteFileResult | main/peripherals/sd_card.c:18-31 | ESP_FAIL exactly when fopen fails |
| SdCard.AsWrittenPathAlloc | main/peripherals/sd_card.c:114 | `strlen(SD_MOUNT_POINT) + strlen(file_version)` = 19, with no byte for the terminator of the joined path |
| SdCard.AsWrittenPathOverflows | main/peripherals/sd_card.c:114-116 | with the allocation as written (19 bytes), strcat's terminator falls at index 19, outside the block |
| SdCard.BuildVersionPath | main/peripherals/sd_card.c:113-116 | with one byte more, every write is in bounds and the block holds "/sdcard/version.txt" |

## Findings

| source | as written | input that shows it | evidently intended | confidence | as-written member | corrected member |
|---|---|---|---|---|---|---|
| main/peripherals/sd_card.c:114 | `malloc(strlen(SD_MOUNT_POINT) + strlen(file_version))` has no room for the terminator | the path "/sdcard" + "/version.txt": 19 bytes are allocated and `strcat` writes 20 | `malloc(strlen(SD_MOUNT_POINT) + strlen(file_version) + 1)` | high; not executed | SdCard.AsWrittenPathOverflows | SdCard.BuildVersionPath |

## Left out

- LVGL internals (`lv_timer_handler`'s work, `lv_tick_inc`, `lv_display_flush_ready`, `lv_draw_sw_rgb565_swap`): these are outside the modelled files. They appear as inputs or trace entries. The byte-swap contents are not modelled.
- GuiPort.Port.tickMs: the clock is an unbounded natural. LVGL's own 32-bit tick counter and its wrap-around are internal to LVGL and not modelled.
- GuiPort.Port.Usleep: interrupts are delivered only while the refresh task sleeps. Arrivals while the lock is held are not modelled. Neither callback touches the lock, so this changes no lock property.
- Real concurrency and priorities of the timer ISR, the DMA-completion interrupt and the FreeRTOS refresh task: these are sequential events here. `app_main` calls `create_ui` after spawning the refresh task without taking the API lock. That race is not captured.
- `usleep` is an abstract step that records its argument. Wall-clock time is not modelled.
- FlushRegion.SwapCount: C `int` overflow of the corner arithmetic is not modelled. LVGL's areas lie within the 240x320 display. The swap count is proved for well-formed areas (`x1 <= x2`, `y1 <= y2`).
- Keypad.UartIndevReadCb: the 10-tick read timeout is an input (`readOk`). Bytes that arrive during the call and the `ESP_LOGI` lines are not modelled. The record's other fields are not modelled.
- SdCard.ReadFile: it requires that an empty file leaves a NUL in the uninitialised line buffer. The source does not check `fgets`'s result, so that buffer's contents are indeterminate. Read errors inside `fgets` are not modelled.
- SdCard.WriteFileResult: the text written by `fprintf` is not modelled. Note that `fprintf` uses `data` as the format string.
- SdCard.Strcpy: `strcpy` and `strcat` are modelled only for source strings without an embedded NUL, which covers the literals the source passes.
- SD card mount, bus set-up, `sdmmc_card_print_info`, and `fopen`/`fclose`: file-system and SPI I/O. They are reduced to the success flag or the contents they yield.
- `lv_bt_device_list_create`: the font assignments and the missing `return` are not modelled. The model returns nothing, and the only caller is commented out in `ui/screens.c`.
- Display, UART, LCD and timer set-up (`init` in `main/gui/gui.c`, `main/peripherals/lcd.c`, `main/peripherals/uart.c`), widget and menu construction (`ui/screens.c`, `components/ui/screens.c`), and the SDL wiring of `sim/hal/hal.c`: these are vendor SDK and LVGL configuration calls.
- The timer period `LVGL_TICK_PERIOD_MS * 1000` microseconds (`main/gui/gui.c:169`) is timer set-up. The model captures only that each firing adds the period to the clock.
- SdCard.BuildVersionPath: `malloc`'s result is not checked in the source, so a NULL block would flow into `strcpy` (main/peripherals/sd_card.c:114-115), and `file_path` is never freed. In the model the allocation always succeeds and the block is not released.
- Keypad.Drain: it feeds each returned record into the next call, which assumes LVGL's input-device loop calls the callback again with the same record while the continue flag is set. That loop is in LVGL and not part of this model.
