/**
 * bsp_brightness_set_level of main/screen.c: a brightness percentage becomes
 * the duty of the backlight's 10-bit LEDC channel. The panel, touch and LEDC
 * bring-up around it is peripheral configuration and is not part of this model.
 */
module Screen {
  import opened CTypes

  /** LCD_BL_LEDC_DUTY: the 10-bit duty range, 1024 steps. */
  const LedcDuty := 1024
  const MaxLevel := 100

  /**
   * The duty for `level` percent: level * (LCD_BL_LEDC_DUTY - 1) / 100,
   * rounded down; the product fits easily in the int the uint8_t is promoted to.
   */
  function Duty(level: uint8): (d: nat)
    requires level <= MaxLevel
    ensures d * MaxLevel <= level * (LedcDuty - 1) < (d + 1) * MaxLevel
    ensures d <= LedcDuty - 1
  {
    level * (LedcDuty - 1) / MaxLevel
  }

  /** Off is a zero duty and full brightness the largest 10-bit duty. */
  lemma DutyEnds()
    ensures Duty(0) == 0
    ensures Duty(100) == LedcDuty - 1
  {
  }

  /** A higher level never gives a lower duty. */
  lemma DutyMonotonic(lo: uint8, hi: uint8)
    requires lo <= hi <= MaxLevel
    ensures Duty(lo) <= Duty(hi)
  {
  }

  /** The duty last written to the backlight's LEDC channel. */
  class Backlight {
    var duty: nat

    /** ledc_channel_config starts the channel at a zero duty. */
    constructor ()
      ensures duty == 0
    {
      duty := 0;
    }

    /**
     * bsp_brightness_set_level: a level above 100 is refused and the duty is
     * left as it was; any other level sets the duty for that percentage.
     */
    method SetLevel(level: uint8)
      modifies this
      ensures duty == if level > MaxLevel then old(duty) else Duty(level)
      ensures duty <= LedcDuty - 1 || duty == old(duty)
    {
      if level > MaxLevel {
        return;
      }
      var d := level * (LedcDuty - 1) / MaxLevel;
      duty := d;
    }
  }
}
