/** The build-time settings of main/system_config.h that the modelled code uses. */
module SystemConfig {

  /** Period of the LVGL tick timer, in milliseconds. */
  const LVGL_TICK_PERIOD_MS: nat := 2

  /** Upper bound on the refresh task's sleep, in milliseconds. */
  const LVGL_TASK_MAX_DELAY_MS: nat := 500

  /** Lower bound on the refresh task's sleep: one FreeRTOS tick, in
      milliseconds, by C integer division of 1000 by the tick rate. */
  function LvglTaskMinDelayMs(freertosHz: nat): (r: nat)
    requires freertosHz > 0
    ensures r <= 1000
    ensures r * freertosHz <= 1000 < (r + 1) * freertosHz
  {
    1000 / freertosHz
  }

  /** Size of the line buffer used when reading from the SD card. */
  const SD_MAX_CHAR_SIZE: nat := 64

  /** Mount point of the SD card's FAT file system. */
  const SD_MOUNT_POINT: string := "/sdcard"
}
