/** The lookup tables of crypto/aes_generic.c, as the file lists them: the S-box and its inverse, which
    are the first of the tables for the last round, and the first of the tables for the other rounds, which
    combine them with the column transformations. */
module AesTables {
  import opened AesField

  /** crypto_fl_tab[0]: the S-box */
  function S(x: bv8): bv8 {
    if x < 0x80 then
     if x < 0x40 then
      if x < 0x20 then
       if x < 0x10 then
        if x < 0x08 then
         if x < 0x04 then
          if x < 0x02 then if x < 0x01 then 0x63 else 0x7c else if x < 0x03 then 0x77 else 0x7b
         else
          if x < 0x06 then if x < 0x05 then 0xf2 else 0x6b else if x < 0x07 then 0x6f else 0xc5
        else
         if x < 0x0c then
          if x < 0x0a then if x < 0x09 then 0x30 else 0x01 else if x < 0x0b then 0x67 else 0x2b
         else
          if x < 0x0e then if x < 0x0d then 0xfe else 0xd7 else if x < 0x0f then 0xab else 0x76
       else
        if x < 0x18 then
         if x < 0x14 then
          if x < 0x12 then if x < 0x11 then 0xca else 0x82 else if x < 0x13 then 0xc9 else 0x7d
         else
          if x < 0x16 then if x < 0x15 then 0xfa else 0x59 else if x < 0x17 then 0x47 else 0xf0
        else
         if x < 0x1c then
          if x < 0x1a then if x < 0x19 then 0xad else 0xd4 else if x < 0x1b then 0xa2 else 0xaf
         else
          if x < 0x1e then if x < 0x1d then 0x9c else 0xa4 else if x < 0x1f then 0x72 else 0xc0
      else
       if x < 0x30 then
        if x < 0x28 then
         if x < 0x24 then
          if x < 0x22 then if x < 0x21 then 0xb7 else 0xfd else if x < 0x23 then 0x93 else 0x26
         else
          if x < 0x26 then if x < 0x25 then 0x36 else 0x3f else if x < 0x27 then 0xf7 else 0xcc
        else
         if x < 0x2c then
          if x < 0x2a then if x < 0x29 then 0x34 else 0xa5 else if x < 0x2b then 0xe5 else 0xf1
         else
          if x < 0x2e then if x < 0x2d then 0x71 else 0xd8 else if x < 0x2f then 0x31 else 0x15
       else
        if x < 0x38 then
         if x < 0x34 then
          if x < 0x32 then if x < 0x31 then 0x04 else 0xc7 else if x < 0x33 then 0x23 else 0xc3
         else
          if x < 0x36 then if x < 0x35 then 0x18 else 0x96 else if x < 0x37 then 0x05 else 0x9a
        else
         if x < 0x3c then
          if x < 0x3a then if x < 0x39 then 0x07 else 0x12 else if x < 0x3b then 0x80 else 0xe2
         else
          if x < 0x3e then if x < 0x3d then 0xeb else 0x27 else if x < 0x3f then 0xb2 else 0x75
     else
      if x < 0x60 then
       if x < 0x50 then
        if x < 0x48 then
         if x < 0x44 then
          if x < 0x42 then if x < 0x41 then 0x09 else 0x83 else if x < 0x43 then 0x2c else 0x1a
         else
          if x < 0x46 then if x < 0x45 then 0x1b else 0x6e else if x < 0x47 then 0x5a else 0xa0
        else
         if x < 0x4c then
          if x < 0x4a then if x < 0x49 then 0x52 else 0x3b else if x < 0x4b then 0xd6 else 0xb3
         else
          if x < 0x4e then if x < 0x4d then 0x29 else 0xe3 else if x < 0x4f then 0x2f else 0x84
       else
        if x < 0x58 then
         if x < 0x54 then
          if x < 0x52 then if x < 0x51 then 0x53 else 0xd1 else if x < 0x53 then 0x00 else 0xed
         else
          if x < 0x56 then if x < 0x55 then 0x20 else 0xfc else if x < 0x57 then 0xb1 else 0x5b
        else
         if x < 0x5c then
          if x < 0x5a then if x < 0x59 then 0x6a else 0xcb else if x < 0x5b then 0xbe else 0x39
         else
          if x < 0x5e then if x < 0x5d then 0x4a else 0x4c else if x < 0x5f then 0x58 else 0xcf
      else
       if x < 0x70 then
        if x < 0x68 then
         if x < 0x64 then
          if x < 0x62 then if x < 0x61 then 0xd0 else 0xef else if x < 0x63 then 0xaa else 0xfb
         else
          if x < 0x66 then if x < 0x65 then 0x43 else 0x4d else if x < 0x67 then 0x33 else 0x85
        else
         if x < 0x6c then
          if x < 0x6a then if x < 0x69 then 0x45 else 0xf9 else if x < 0x6b then 0x02 else 0x7f
         else
          if x < 0x6e then if x < 0x6d then 0x50 else 0x3c else if x < 0x6f then 0x9f else 0xa8
       else
        if x < 0x78 then
         if x < 0x74 then
          if x < 0x72 then if x < 0x71 then 0x51 else 0xa3 else if x < 0x73 then 0x40 else 0x8f
         else
          if x < 0x76 then if x < 0x75 then 0x92 else 0x9d else if x < 0x77 then 0x38 else 0xf5
        else
         if x < 0x7c then
          if x < 0x7a then if x < 0x79 then 0xbc else 0xb6 else if x < 0x7b then 0xda else 0x21
         else
          if x < 0x7e then if x < 0x7d then 0x10 else 0xff else if x < 0x7f then 0xf3 else 0xd2
    else
     if x < 0xc0 then
      if x < 0xa0 then
       if x < 0x90 then
        if x < 0x88 then
         if x < 0x84 then
          if x < 0x82 then if x < 0x81 then 0xcd else 0x0c else if x < 0x83 then 0x13 else 0xec
         else
          if x < 0x86 then if x < 0x85 then 0x5f else 0x97 else if x < 0x87 then 0x44 else 0x17
        else
         if x < 0x8c then
          if x < 0x8a then if x < 0x89 then 0xc4 else 0xa7 else if x < 0x8b then 0x7e else 0x3d
         else
          if x < 0x8e then if x < 0x8d then 0x64 else 0x5d else if x < 0x8f then 0x19 else 0x73
       else
        if x < 0x98 then
         if x < 0x94 then
          if x < 0x92 then if x < 0x91 then 0x60 else 0x81 else if x < 0x93 then 0x4f else 0xdc
         else
          if x < 0x96 then if x < 0x95 then 0x22 else 0x2a else if x < 0x97 then 0x90 else 0x88
        else
         if x < 0x9c then
          if x < 0x9a then if x < 0x99 then 0x46 else 0xee else if x < 0x9b then 0xb8 else 0x14
         else
          if x < 0x9e then if x < 0x9d then 0xde else 0x5e else if x < 0x9f then 0x0b else 0xdb
      else
       if x < 0xb0 then
        if x < 0xa8 then
         if x < 0xa4 then
          if x < 0xa2 then if x < 0xa1 then 0xe0 else 0x32 else if x < 0xa3 then 0x3a else 0x0a
         else
          if x < 0xa6 then if x < 0xa5 then 0x49 else 0x06 else if x < 0xa7 then 0x24 else 0x5c
        else
         if x < 0xac then
          if x < 0xaa then if x < 0xa9 then 0xc2 else 0xd3 else if x < 0xab then 0xac else 0x62
         else
          if x < 0xae then if x < 0xad then 0x91 else 0x95 else if x < 0xaf then 0xe4 else 0x79
       else
        if x < 0xb8 then
         if x < 0xb4 then
          if x < 0xb2 then if x < 0xb1 then 0xe7 else 0xc8 else if x < 0xb3 then 0x37 else 0x6d
         else
          if x < 0xb6 then if x < 0xb5 then 0x8d else 0xd5 else if x < 0xb7 then 0x4e else 0xa9
        else
         if x < 0xbc then
          if x < 0xba then if x < 0xb9 then 0x6c else 0x56 else if x < 0xbb then 0xf4 else 0xea
         else
          if x < 0xbe then if x < 0xbd then 0x65 else 0x7a else if x < 0xbf then 0xae else 0x08
     else
      if x < 0xe0 then
       if x < 0xd0 then
        if x < 0xc8 then
         if x < 0xc4 then
          if x < 0xc2 then if x < 0xc1 then 0xba else 0x78 else if x < 0xc3 then 0x25 else 0x2e
         else
          if x < 0xc6 then if x < 0xc5 then 0x1c else 0xa6 else if x < 0xc7 then 0xb4 else 0xc6
        else
         if x < 0xcc then
          if x < 0xca then if x < 0xc9 then 0xe8 else 0xdd else if x < 0xcb then 0x74 else 0x1f
         else
          if x < 0xce then if x < 0xcd then 0x4b else 0xbd else if x < 0xcf then 0x8b else 0x8a
       else
        if x < 0xd8 then
         if x < 0xd4 then
          if x < 0xd2 then if x < 0xd1 then 0x70 else 0x3e else if x < 0xd3 then 0xb5 else 0x66
         else
          if x < 0xd6 then if x < 0xd5 then 0x48 else 0x03 else if x < 0xd7 then 0xf6 else 0x0e
        else
         if x < 0xdc then
          if x < 0xda then if x < 0xd9 then 0x61 else 0x35 else if x < 0xdb then 0x57 else 0xb9
         else
          if x < 0xde then if x < 0xdd then 0x86 else 0xc1 else if x < 0xdf then 0x1d else 0x9e
      else
       if x < 0xf0 then
        if x < 0xe8 then
         if x < 0xe4 then
          if x < 0xe2 then if x < 0xe1 then 0xe1 else 0xf8 else if x < 0xe3 then 0x98 else 0x11
         else
          if x < 0xe6 then if x < 0xe5 then 0x69 else 0xd9 else if x < 0xe7 then 0x8e else 0x94
        else
         if x < 0xec then
          if x < 0xea then if x < 0xe9 then 0x9b else 0x1e else if x < 0xeb then 0x87 else 0xe9
         else
          if x < 0xee then if x < 0xed then 0xce else 0x55 else if x < 0xef then 0x28 else 0xdf
       else
        if x < 0xf8 then
         if x < 0xf4 then
          if x < 0xf2 then if x < 0xf1 then 0x8c else 0xa1 else if x < 0xf3 then 0x89 else 0x0d
         else
          if x < 0xf6 then if x < 0xf5 then 0xbf else 0xe6 else if x < 0xf7 then 0x42 else 0x68
        else
         if x < 0xfc then
          if x < 0xfa then if x < 0xf9 then 0x41 else 0x99 else if x < 0xfb then 0x2d else 0x0f
         else
          if x < 0xfe then if x < 0xfd then 0xb0 else 0x54 else if x < 0xff then 0xbb else 0x16
  }

  /** crypto_il_tab[0]: the inverse S-box */
  function InvS(x: bv8): bv8 {
    if x < 0x80 then
     if x < 0x40 then
      if x < 0x20 then
       if x < 0x10 then
        if x < 0x08 then
         if x < 0x04 then
          if x < 0x02 then if x < 0x01 then 0x52 else 0x09 else if x < 0x03 then 0x6a else 0xd5
         else
          if x < 0x06 then if x < 0x05 then 0x30 else 0x36 else if x < 0x07 then 0xa5 else 0x38
        else
         if x < 0x0c then
          if x < 0x0a then if x < 0x09 then 0xbf else 0x40 else if x < 0x0b then 0xa3 else 0x9e
         else
          if x < 0x0e then if x < 0x0d then 0x81 else 0xf3 else if x < 0x0f then 0xd7 else 0xfb
       else
        if x < 0x18 then
         if x < 0x14 then
          if x < 0x12 then if x < 0x11 then 0x7c else 0xe3 else if x < 0x13 then 0x39 else 0x82
         else
          if x < 0x16 then if x < 0x15 then 0x9b else 0x2f else if x < 0x17 then 0xff else 0x87
        else
         if x < 0x1c then
          if x < 0x1a then if x < 0x19 then 0x34 else 0x8e else if x < 0x1b then 0x43 else 0x44
         else
          if x < 0x1e then if x < 0x1d then 0xc4 else 0xde else if x < 0x1f then 0xe9 else 0xcb
      else
       if x < 0x30 then
        if x < 0x28 then
         if x < 0x24 then
          if x < 0x22 then if x < 0x21 then 0x54 else 0x7b else if x < 0x23 then 0x94 else 0x32
         else
          if x < 0x26 then if x < 0x25 then 0xa6 else 0xc2 else if x < 0x27 then 0x23 else 0x3d
        else
         if x < 0x2c then
          if x < 0x2a then if x < 0x29 then 0xee else 0x4c else if x < 0x2b then 0x95 else 0x0b
         else
          if x < 0x2e then if x < 0x2d then 0x42 else 0xfa else if x < 0x2f then 0xc3 else 0x4e
       else
        if x < 0x38 then
         if x < 0x34 then
          if x < 0x32 then if x < 0x31 then 0x08 else 0x2e else if x < 0x33 then 0xa1 else 0x66
         else
          if x < 0x36 then if x < 0x35 then 0x28 else 0xd9 else if x < 0x37 then 0x24 else 0xb2
        else
         if x < 0x3c then
          if x < 0x3a then if x < 0x39 then 0x76 else 0x5b else if x < 0x3b then 0xa2 else 0x49
         else
          if x < 0x3e then if x < 0x3d then 0x6d else 0x8b else if x < 0x3f then 0xd1 else 0x25
     else
      if x < 0x60 then
       if x < 0x50 then
        if x < 0x48 then
         if x < 0x44 then
          if x < 0x42 then if x < 0x41 then 0x72 else 0xf8 else if x < 0x43 then 0xf6 else 0x64
         else
          if x < 0x46 then if x < 0x45 then 0x86 else 0x68 else if x < 0x47 then 0x98 else 0x16
        else
         if x < 0x4c then
          if x < 0x4a then if x < 0x49 then 0xd4 else 0xa4 else if x < 0x4b then 0x5c else 0xcc
         else
          if x < 0x4e then if x < 0x4d then 0x5d else 0x65 else if x < 0x4f then 0xb6 else 0x92
       else
        if x < 0x58 then
         if x < 0x54 then
          if x < 0x52 then if x < 0x51 then 0x6c else 0x70 else if x < 0x53 then 0x48 else 0x50
         else
          if x < 0x56 then if x < 0x55 then 0xfd else 0xed else if x < 0x57 then 0xb9 else 0xda
        else
         if x < 0x5c then
          if x < 0x5a then if x < 0x59 then 0x5e else 0x15 else if x < 0x5b then 0x46 else 0x57
         else
          if x < 0x5e then if x < 0x5d then 0xa7 else 0x8d else if x < 0x5f then 0x9d else 0x84
      else
       if x < 0x70 then
        if x < 0x68 then
         if x < 0x64 then
          if x < 0x62 then if x < 0x61 then 0x90 else 0xd8 else if x < 0x63 then 0xab else 0x00
         else
          if x < 0x66 then if x < 0x65 then 0x8c else 0xbc else if x < 0x67 then 0xd3 else 0x0a
        else
         if x < 0x6c then
          if x < 0x6a then if x < 0x69 then 0xf7 else 0xe4 else if x < 0x6b then 0x58 else 0x05
         else
          if x < 0x6e then if x < 0x6d then 0xb8 else 0xb3 else if x < 0x6f then 0x45 else 0x06
       else
        if x < 0x78 then
         if x < 0x74 then
          if x < 0x72 then if x < 0x71 then 0xd0 else 0x2c else if x < 0x73 then 0x1e else 0x8f
         else
          if x < 0x76 then if x < 0x75 then 0xca else 0x3f else if x < 0x77 then 0x0f else 0x02
        else
         if x < 0x7c then
          if x < 0x7a then if x < 0x79 then 0xc1 else 0xaf else if x < 0x7b then 0xbd else 0x03
         else
          if x < 0x7e then if x < 0x7d then 0x01 else 0x13 else if x < 0x7f then 0x8a else 0x6b
    else
     if x < 0xc0 then
      if x < 0xa0 then
       if x < 0x90 then
        if x < 0x88 then
         if x < 0x84 then
          if x < 0x82 then if x < 0x81 then 0x3a else 0x91 else if x < 0x83 then 0x11 else 0x41
         else
          if x < 0x86 then if x < 0x85 then 0x4f else 0x67 else if x < 0x87 then 0xdc else 0xea
        else
         if x < 0x8c then
          if x < 0x8a then if x < 0x89 then 0x97 else 0xf2 else if x < 0x8b then 0xcf else 0xce
         else
          if x < 0x8e then if x < 0x8d then 0xf0 else 0xb4 else if x < 0x8f then 0xe6 else 0x73
       else
        if x < 0x98 then
         if x < 0x94 then
          if x < 0x92 then if x < 0x91 then 0x96 else 0xac else if x < 0x93 then 0x74 else 0x22
         else
          if x < 0x96 then if x < 0x95 then 0xe7 else 0xad else if x < 0x97 then 0x35 else 0x85
        else
         if x < 0x9c then
          if x < 0x9a then if x < 0x99 then 0xe2 else 0xf9 else if x < 0x9b then 0x37 else 0xe8
         else
          if x < 0x9e then if x < 0x9d then 0x1c else 0x75 else if x < 0x9f then 0xdf else 0x6e
      else
       if x < 0xb0 then
        if x < 0xa8 then
         if x < 0xa4 then
          if x < 0xa2 then if x < 0xa1 then 0x47 else 0xf1 else if x < 0xa3 then 0x1a else 0x71
         else
          if x < 0xa6 then if x < 0xa5 then 0x1d else 0x29 else if x < 0xa7 then 0xc5 else 0x89
        else
         if x < 0xac then
          if x < 0xaa then if x < 0xa9 then 0x6f else 0xb7 else if x < 0xab then 0x62 else 0x0e
         else
          if x < 0xae then if x < 0xad then 0xaa else 0x18 else if x < 0xaf then 0xbe else 0x1b
       else
        if x < 0xb8 then
         if x < 0xb4 then
          if x < 0xb2 then if x < 0xb1 then 0xfc else 0x56 else if x < 0xb3 then 0x3e else 0x4b
         else
          if x < 0xb6 then if x < 0xb5 then 0xc6 else 0xd2 else if x < 0xb7 then 0x79 else 0x20
        else
         if x < 0xbc then
          if x < 0xba then if x < 0xb9 then 0x9a else 0xdb else if x < 0xbb then 0xc0 else 0xfe
         else
          if x < 0xbe then if x < 0xbd then 0x78 else 0xcd else if x < 0xbf then 0x5a else 0xf4
     else
      if x < 0xe0 then
       if x < 0xd0 then
        if x < 0xc8 then
         if x < 0xc4 then
          if x < 0xc2 then if x < 0xc1 then 0x1f else 0xdd else if x < 0xc3 then 0xa8 else 0x33
         else
          if x < 0xc6 then if x < 0xc5 then 0x88 else 0x07 else if x < 0xc7 then 0xc7 else 0x31
        else
         if x < 0xcc then
          if x < 0xca then if x < 0xc9 then 0xb1 else 0x12 else if x < 0xcb then 0x10 else 0x59
         else
          if x < 0xce then if x < 0xcd then 0x27 else 0x80 else if x < 0xcf then 0xec else 0x5f
       else
        if x < 0xd8 then
         if x < 0xd4 then
          if x < 0xd2 then if x < 0xd1 then 0x60 else 0x51 else if x < 0xd3 then 0x7f else 0xa9
         else
          if x < 0xd6 then if x < 0xd5 then 0x19 else 0xb5 else if x < 0xd7 then 0x4a else 0x0d
        else
         if x < 0xdc then
          if x < 0xda then if x < 0xd9 then 0x2d else 0xe5 else if x < 0xdb then 0x7a else 0x9f
         else
          if x < 0xde then if x < 0xdd then 0x93 else 0xc9 else if x < 0xdf then 0x9c else 0xef
      else
       if x < 0xf0 then
        if x < 0xe8 then
         if x < 0xe4 then
          if x < 0xe2 then if x < 0xe1 then 0xa0 else 0xe0 else if x < 0xe3 then 0x3b else 0x4d
         else
          if x < 0xe6 then if x < 0xe5 then 0xae else 0x2a else if x < 0xe7 then 0xf5 else 0xb0
        else
         if x < 0xec then
          if x < 0xea then if x < 0xe9 then 0xc8 else 0xeb else if x < 0xeb then 0xbb else 0x3c
         else
          if x < 0xee then if x < 0xed then 0x83 else 0x53 else if x < 0xef then 0x99 else 0x61
       else
        if x < 0xf8 then
         if x < 0xf4 then
          if x < 0xf2 then if x < 0xf1 then 0x17 else 0x2b else if x < 0xf3 then 0x04 else 0x7e
         else
          if x < 0xf6 then if x < 0xf5 then 0xba else 0x77 else if x < 0xf7 then 0xd6 else 0x26
        else
         if x < 0xfc then
          if x < 0xfa then if x < 0xf9 then 0xe1 else 0x69 else if x < 0xfb then 0x14 else 0x63
         else
          if x < 0xfe then if x < 0xfd then 0x55 else 0x21 else if x < 0xff then 0x0c else 0x7d
  }

  /** crypto_ft_tab[0] */
  function Ft0(x: bv8): bv32 {
    if x < 0x80 then
     if x < 0x40 then
      if x < 0x20 then
       if x < 0x10 then
        if x < 0x08 then
         if x < 0x04 then
          if x < 0x02 then if x < 0x01 then 0xa56363c6 else 0x847c7cf8 else if x < 0x03 then 0x997777ee else 0x8d7b7bf6
         else
          if x < 0x06 then if x < 0x05 then 0x0df2f2ff else 0xbd6b6bd6 else if x < 0x07 then 0xb16f6fde else 0x54c5c591
        else
         if x < 0x0c then
          if x < 0x0a then if x < 0x09 then 0x50303060 else 0x03010102 else if x < 0x0b then 0xa96767ce else 0x7d2b2b56
         else
          if x < 0x0e then if x < 0x0d then 0x19fefee7 else 0x62d7d7b5 else if x < 0x0f then 0xe6abab4d else 0x9a7676ec
       else
        if x < 0x18 then
         if x < 0x14 then
          if x < 0x12 then if x < 0x11 then 0x45caca8f else 0x9d82821f else if x < 0x13 then 0x40c9c989 else 0x877d7dfa
         else
          if x < 0x16 then if x < 0x15 then 0x15fafaef else 0xeb5959b2 else if x < 0x17 then 0xc947478e else 0x0bf0f0fb
        else
         if x < 0x1c then
          if x < 0x1a then if x < 0x19 then 0xecadad41 else 0x67d4d4b3 else if x < 0x1b then 0xfda2a25f else 0xeaafaf45
         else
          if x < 0x1e then if x < 0x1d then 0xbf9c9c23 else 0xf7a4a453 else if x < 0x1f then 0x967272e4 else 0x5bc0c09b
      else
       if x < 0x30 then
        if x < 0x28 then
         if x < 0x24 then
          if x < 0x22 then if x < 0x21 then 0xc2b7b775 else 0x1cfdfde1 else if x < 0x23 then 0xae93933d else 0x6a26264c
         else
          if x < 0x26 then if x < 0x25 then 0x5a36366c else 0x413f3f7e else if x < 0x27 then 0x02f7f7f5 else 0x4fcccc83
        else
         if x < 0x2c then
          if x < 0x2a then if x < 0x29 then 0x5c343468 else 0xf4a5a551 else if x < 0x2b then 0x34e5e5d1 else 0x08f1f1f9
         else
          if x < 0x2e then if x < 0x2d then 0x937171e2 else 0x73d8d8ab else if x < 0x2f then 0x53313162 else 0x3f15152a
       else
        if x < 0x38 then
         if x < 0x34 then
          if x < 0x32 then if x < 0x31 then 0x0c040408 else 0x52c7c795 else if x < 0x33 then 0x65232346 else 0x5ec3c39d
         else
          if x < 0x36 then if x < 0x35 then 0x28181830 else 0xa1969637 else if x < 0x37 then 0x0f05050a else 0xb59a9a2f
        else
         if x < 0x3c then
          if x < 0x3a then if x < 0x39 then 0x0907070e else 0x36121224 else if x < 0x3b then 0x9b80801b else 0x3de2e2df
         else
          if x < 0x3e then if x < 0x3d then 0x26ebebcd else 0x6927274e else if x < 0x3f then 0xcdb2b27f else 0x9f7575ea
     else
      if x < 0x60 then
       if x < 0x50 then
        if x < 0x48 then
         if x < 0x44 then
          if x < 0x42 then if x < 0x41 then 0x1b090912 else 0x9e83831d else if x < 0x43 then 0x742c2c58 else 0x2e1a1a34
         else
          if x < 0x46 then if x < 0x45 then 0x2d1b1b36 else 0xb26e6edc else if x < 0x47 then 0xee5a5ab4 else 0xfba0a05b
        else
         if x < 0x4c then
          if x < 0x4a then if x < 0x49 then 0xf65252a4 else 0x4d3b3b76 else if x < 0x4b then 0x61d6d6b7 else 0xceb3b37d
         else
          if x < 0x4e then if x < 0x4d then 0x7b292952 else 0x3ee3e3dd else if x < 0x4f then 0x712f2f5e else 0x97848413
       else
        if x < 0x58 then
         if x < 0x54 then
          if x < 0x52 then if x < 0x51 then 0xf55353a6 else 0x68d1d1b9 else if x < 0x53 then 0x00000000 else 0x2cededc1
         else
          if x < 0x56 then if x < 0x55 then 0x60202040 else 0x1ffcfce3 else if x < 0x57 then 0xc8b1b179 else 0xed5b5bb6
        else
         if x < 0x5c then
          if x < 0x5a then if x < 0x59 then 0xbe6a6ad4 else 0x46cbcb8d else if x < 0x5b then 0xd9bebe67 else 0x4b393972
         else
          if x < 0x5e then if x < 0x5d then 0xde4a4a94 else 0xd44c4c98 else if x < 0x5f then 0xe85858b0 else 0x4acfcf85
      else
       if x < 0x70 then
        if x < 0x68 then
         if x < 0x64 then
          if x < 0x62 then if x < 0x61 then 0x6bd0d0bb else 0x2aefefc5 else if x < 0x63 then 0xe5aaaa4f else 0x16fbfbed
         else
          if x < 0x66 then if x < 0x65 then 0xc5434386 else 0xd74d4d9a else if x < 0x67 then 0x55333366 else 0x94858511
        else
         if x < 0x6c then
          if x < 0x6a then if x < 0x69 then 0xcf45458a else 0x10f9f9e9 else if x < 0x6b then 0x06020204 else 0x817f7ffe
         else
          if x < 0x6e then if x < 0x6d then 0xf05050a0 else 0x443c3c78 else if x < 0x6f then 0xba9f9f25 else 0xe3a8a84b
       else
        if x < 0x78 then
         if x < 0x74 then
          if x < 0x72 then if x < 0x71 then 0xf35151a2 else 0xfea3a35d else if x < 0x73 then 0xc0404080 else 0x8a8f8f05
         else
          if x < 0x76 then if x < 0x75 then 0xad92923f else 0xbc9d9d21 else if x < 0x77 then 0x48383870 else 0x04f5f5f1
        else
         if x < 0x7c then
          if x < 0x7a then if x < 0x79 then 0xdfbcbc63 else 0xc1b6b677 else if x < 0x7b then 0x75dadaaf else 0x63212142
         else
          if x < 0x7e then if x < 0x7d then 0x30101020 else 0x1affffe5 else if x < 0x7f then 0x0ef3f3fd else 0x6dd2d2bf
    else
     if x < 0xc0 then
      if x < 0xa0 then
       if x < 0x90 then
        if x < 0x88 then
         if x < 0x84 then
          if x < 0x82 then if x < 0x81 then 0x4ccdcd81 else 0x140c0c18 else if x < 0x83 then 0x35131326 else 0x2fececc3
         else
          if x < 0x86 then if x < 0x85 then 0xe15f5fbe else 0xa2979735 else if x < 0x87 then 0xcc444488 else 0x3917172e
        else
         if x < 0x8c then
          if x < 0x8a then if x < 0x89 then 0x57c4c493 else 0xf2a7a755 else if x < 0x8b then 0x827e7efc else 0x473d3d7a
         else
          if x < 0x8e then if x < 0x8d then 0xac6464c8 else 0xe75d5dba else if x < 0x8f then 0x2b191932 else 0x957373e6
       else
        if x < 0x98 then
         if x < 0x94 then
          if x < 0x92 then if x < 0x91 then 0xa06060c0 else 0x98818119 else if x < 0x93 then 0xd14f4f9e else 0x7fdcdca3
         else
          if x < 0x96 then if x < 0x95 then 0x66222244 else 0x7e2a2a54 else if x < 0x97 then 0xab90903b else 0x8388880b
        else
         if x < 0x9c then
          if x < 0x9a then if x < 0x99 then 0xca46468c else 0x29eeeec7 else if x < 0x9b then 0xd3b8b86b else 0x3c141428
         else
          if x < 0x9e then if x < 0x9d then 0x79dedea7 else 0xe25e5ebc else if x < 0x9f then 0x1d0b0b16 else 0x76dbdbad
      else
       if x < 0xb0 then
        if x < 0xa8 then
         if x < 0xa4 then
          if x < 0xa2 then if x < 0xa1 then 0x3be0e0db else 0x56323264 else if x < 0xa3 then 0x4e3a3a74 else 0x1e0a0a14
         else
          if x < 0xa6 then if x < 0xa5 then 0xdb494992 else 0x0a06060c else if x < 0xa7 then 0x6c242448 else 0xe45c5cb8
        else
         if x < 0xac then
          if x < 0xaa then if x < 0xa9 then 0x5dc2c29f else 0x6ed3d3bd else if x < 0xab then 0xefacac43 else 0xa66262c4
         else
          if x < 0xae then if x < 0xad then 0xa8919139 else 0xa4959531 else if x < 0xaf then 0x37e4e4d3 else 0x8b7979f2
       else
        if x < 0xb8 then
         if x < 0xb4 then
          if x < 0xb2 then if x < 0xb1 then 0x32e7e7d5 else 0x43c8c88b else if x < 0xb3 then 0x5937376e else 0xb76d6dda
         else
          if x < 0xb6 then if x < 0xb5 then 0x8c8d8d01 else 0x64d5d5b1 else if x < 0xb7 then 0xd24e4e9c else 0xe0a9a949
        else
         if x < 0xbc then
          if x < 0xba then if x < 0xb9 then 0xb46c6cd8 else 0xfa5656ac else if x < 0xbb then 0x07f4f4f3 else 0x25eaeacf
         else
          if x < 0xbe then if x < 0xbd then 0xaf6565ca else 0x8e7a7af4 else if x < 0xbf then 0xe9aeae47 else 0x18080810
     else
      if x < 0xe0 then
       if x < 0xd0 then
        if x < 0xc8 then
         if x < 0xc4 then
          if x < 0xc2 then if x < 0xc1 then 0xd5baba6f else 0x887878f0 else if x < 0xc3 then 0x6f25254a else 0x722e2e5c
         else
          if x < 0xc6 then if x < 0xc5 then 0x241c1c38 else 0xf1a6a657 else if x < 0xc7 then 0xc7b4b473 else 0x51c6c697
        else
         if x < 0xcc then
          if x < 0xca then if x < 0xc9 then 0x23e8e8cb else 0x7cdddda1 else if x < 0xcb then 0x9c7474e8 else 0x211f1f3e
         else
          if x < 0xce then if x < 0xcd then 0xdd4b4b96 else 0xdcbdbd61 else if x < 0xcf then 0x868b8b0d else 0x858a8a0f
       else
        if x < 0xd8 then
         if x < 0xd4 then
          if x < 0xd2 then if x < 0xd1 then 0x907070e0 else 0x423e3e7c else if x < 0xd3 then 0xc4b5b571 else 0xaa6666cc
         else
          if x < 0xd6 then if x < 0xd5 then 0xd8484890 else 0x05030306 else if x < 0xd7 then 0x01f6f6f7 else 0x120e0e1c
        else
         if x < 0xdc then
          if x < 0xda then if x < 0xd9 then 0xa36161c2 else 0x5f35356a else if x < 0xdb then 0xf95757ae else 0xd0b9b969
         else
          if x < 0xde then if x < 0xdd then 0x91868617 else 0x58c1c199 else if x < 0xdf then 0x271d1d3a else 0xb99e9e27
      else
       if x < 0xf0 then
        if x < 0xe8 then
         if x < 0xe4 then
          if x < 0xe2 then if x < 0xe1 then 0x38e1e1d9 else 0x13f8f8eb else if x < 0xe3 then 0xb398982b else 0x33111122
         else
          if x < 0xe6 then if x < 0xe5 then 0xbb6969d2 else 0x70d9d9a9 else if x < 0xe7 then 0x898e8e07 else 0xa7949433
        else
         if x < 0xec then
          if x < 0xea then if x < 0xe9 then 0xb69b9b2d else 0x221e1e3c else if x < 0xeb then 0x92878715 else 0x20e9e9c9
         else
          if x < 0xee then if x < 0xed then 0x49cece87 else 0xff5555aa else if x < 0xef then 0x78282850 else 0x7adfdfa5
       else
        if x < 0xf8 then
         if x < 0xf4 then
          if x < 0xf2 then if x < 0xf1 then 0x8f8c8c03 else 0xf8a1a159 else if x < 0xf3 then 0x80898909 else 0x170d0d1a
         else
          if x < 0xf6 then if x < 0xf5 then 0xdabfbf65 else 0x31e6e6d7 else if x < 0xf7 then 0xc6424284 else 0xb86868d0
        else
         if x < 0xfc then
          if x < 0xfa then if x < 0xf9 then 0xc3414182 else 0xb0999929 else if x < 0xfb then 0x772d2d5a else 0x110f0f1e
         else
          if x < 0xfe then if x < 0xfd then 0xcbb0b07b else 0xfc5454a8 else if x < 0xff then 0xd6bbbb6d else 0x3a16162c
  }

  /** crypto_it_tab[0] */
  function It0(x: bv8): bv32 {
    if x < 0x80 then
     if x < 0x40 then
      if x < 0x20 then
       if x < 0x10 then
        if x < 0x08 then
         if x < 0x04 then
          if x < 0x02 then if x < 0x01 then 0x50a7f451 else 0x5365417e else if x < 0x03 then 0xc3a4171a else 0x965e273a
         else
          if x < 0x06 then if x < 0x05 then 0xcb6bab3b else 0xf1459d1f else if x < 0x07 then 0xab58faac else 0x9303e34b
        else
         if x < 0x0c then
          if x < 0x0a then if x < 0x09 then 0x55fa3020 else 0xf66d76ad else if x < 0x0b then 0x9176cc88 else 0x254c02f5
         else
          if x < 0x0e then if x < 0x0d then 0xfcd7e54f else 0xd7cb2ac5 else if x < 0x0f then 0x80443526 else 0x8fa362b5
       else
        if x < 0x18 then
         if x < 0x14 then
          if x < 0x12 then if x < 0x11 then 0x495ab1de else 0x671bba25 else if x < 0x13 then 0x980eea45 else 0xe1c0fe5d
         else
          if x < 0x16 then if x < 0x15 then 0x02752fc3 else 0x12f04c81 else if x < 0x17 then 0xa397468d else 0xc6f9d36b
        else
         if x < 0x1c then
          if x < 0x1a then if x < 0x19 then 0xe75f8f03 else 0x959c9215 else if x < 0x1b then 0xeb7a6dbf else 0xda595295
         else
          if x < 0x1e then if x < 0x1d then 0x2d83bed4 else 0xd3217458 else if x < 0x1f then 0x2969e049 else 0x44c8c98e
      else
       if x < 0x30 then
        if x < 0x28 then
         if x < 0x24 then
          if x < 0x22 then if x < 0x21 then 0x6a89c275 else 0x78798ef4 else if x < 0x23 then 0x6b3e5899 else 0xdd71b927
         else
          if x < 0x26 then if x < 0x25 then 0xb64fe1be else 0x17ad88f0 else if x < 0x27 then 0x66ac20c9 else 0xb43ace7d
        else
         if x < 0x2c then
          if x < 0x2a then if x < 0x29 then 0x184adf63 else 0x82311ae5 else if x < 0x2b then 0x60335197 else 0x457f5362
         else
          if x < 0x2e then if x < 0x2d then 0xe07764b1 else 0x84ae6bbb else if x < 0x2f then 0x1ca081fe else 0x942b08f9
       else
        if x < 0x38 then
         if x < 0x34 then
          if x < 0x32 then if x < 0x31 then 0x58684870 else 0x19fd458f else if x < 0x33 then 0x876cde94 else 0xb7f87b52
         else
          if x < 0x36 then if x < 0x35 then 0x23d373ab else 0xe2024b72 else if x < 0x37 then 0x578f1fe3 else 0x2aab5566
        else
         if x < 0x3c then
          if x < 0x3a then if x < 0x39 then 0x0728ebb2 else 0x03c2b52f else if x < 0x3b then 0x9a7bc586 else 0xa50837d3
         else
          if x < 0x3e then if x < 0x3d then 0xf2872830 else 0xb2a5bf23 else if x < 0x3f then 0xba6a0302 else 0x5c8216ed
     else
      if x < 0x60 then
       if x < 0x50 then
        if x < 0x48 then
         if x < 0x44 then
          if x < 0x42 then if x < 0x41 then 0x2b1ccf8a else 0x92b479a7 else if x < 0x43 then 0xf0f207f3 else 0xa1e2694e
         else
          if x < 0x46 then if x < 0x45 then 0xcdf4da65 else 0xd5be0506 else if x < 0x47 then 0x1f6234d1 else 0x8afea6c4
        else
         if x < 0x4c then
          if x < 0x4a then if x < 0x49 then 0x9d532e34 else 0xa055f3a2 else if x < 0x4b then 0x32e18a05 else 0x75ebf6a4
         else
          if x < 0x4e then if x < 0x4d then 0x39ec830b else 0xaaef6040 else if x < 0x4f then 0x069f715e else 0x51106ebd
       else
        if x < 0x58 then
         if x < 0x54 then
          if x < 0x52 then if x < 0x51 then 0xf98a213e else 0x3d06dd96 else if x < 0x53 then 0xae053edd else 0x46bde64d
         else
          if x < 0x56 then if x < 0x55 then 0xb58d5491 else 0x055dc471 else if x < 0x57 then 0x6fd40604 else 0xff155060
        else
         if x < 0x5c then
          if x < 0x5a then if x < 0x59 then 0x24fb9819 else 0x97e9bdd6 else if x < 0x5b then 0xcc434089 else 0x779ed967
         else
          if x < 0x5e then if x < 0x5d then 0xbd42e8b0 else 0x888b8907 else if x < 0x5f then 0x385b19e7 else 0xdbeec879
      else
       if x < 0x70 then
        if x < 0x68 then
         if x < 0x64 then
          if x < 0x62 then if x < 0x61 then 0x470a7ca1 else 0xe90f427c else if x < 0x63 then 0xc91e84f8 else 0x00000000
         else
          if x < 0x66 then if x < 0x65 then 0x83868009 else 0x48ed2b32 else if x < 0x67 then 0xac70111e else 0x4e725a6c
        else
         if x < 0x6c then
          if x < 0x6a then if x < 0x69 then 0xfbff0efd else 0x5638850f else if x < 0x6b then 0x1ed5ae3d else 0x27392d36
         else
          if x < 0x6e then if x < 0x6d then 0x64d90f0a else 0x21a65c68 else if x < 0x6f then 0xd1545b9b else 0x3a2e3624
       else
        if x < 0x78 then
         if x < 0x74 then
          if x < 0x72 then if x < 0x71 then 0xb1670a0c else 0x0fe75793 else if x < 0x73 then 0xd296eeb4 else 0x9e919b1b
         else
          if x < 0x76 then if x < 0x75 then 0x4fc5c080 else 0xa220dc61 else if x < 0x77 then 0x694b775a else 0x161a121c
        else
         if x < 0x7c then
          if x < 0x7a then if x < 0x79 then 0x0aba93e2 else 0xe52aa0c0 else if x < 0x7b then 0x43e0223c else 0x1d171b12
         else
          if x < 0x7e then if x < 0x7d then 0x0b0d090e else 0xadc78bf2 else if x < 0x7f then 0xb9a8b62d else 0xc8a91e14
    else
     if x < 0xc0 then
      if x < 0xa0 then
       if x < 0x90 then
        if x < 0x88 then
         if x < 0x84 then
          if x < 0x82 then if x < 0x81 then 0x8519f157 else 0x4c0775af else if x < 0x83 then 0xbbdd99ee else 0xfd607fa3
         else
          if x < 0x86 then if x < 0x85 then 0x9f2601f7 else 0xbcf5725c else if x < 0x87 then 0xc53b6644 else 0x347efb5b
        else
         if x < 0x8c then
          if x < 0x8a then if x < 0x89 then 0x7629438b else 0xdcc623cb else if x < 0x8b then 0x68fcedb6 else 0x63f1e4b8
         else
          if x < 0x8e then if x < 0x8d then 0xcadc31d7 else 0x10856342 else if x < 0x8f then 0x40229713 else 0x2011c684
       else
        if x < 0x98 then
         if x < 0x94 then
          if x < 0x92 then if x < 0x91 then 0x7d244a85 else 0xf83dbbd2 else if x < 0x93 then 0x1132f9ae else 0x6da129c7
         else
          if x < 0x96 then if x < 0x95 then 0x4b2f9e1d else 0xf330b2dc else if x < 0x97 then 0xec52860d else 0xd0e3c177
        else
         if x < 0x9c then
          if x < 0x9a then if x < 0x99 then 0x6c16b32b else 0x99b970a9 else if x < 0x9b then 0xfa489411 else 0x2264e947
         else
          if x < 0x9e then if x < 0x9d then 0xc48cfca8 else 0x1a3ff0a0 else if x < 0x9f then 0xd82c7d56 else 0xef903322
      else
       if x < 0xb0 then
        if x < 0xa8 then
         if x < 0xa4 then
          if x < 0xa2 then if x < 0xa1 then 0xc74e4987 else 0xc1d138d9 else if x < 0xa3 then 0xfea2ca8c else 0x360bd498
         else
          if x < 0xa6 then if x < 0xa5 then 0xcf81f5a6 else 0x28de7aa5 else if x < 0xa7 then 0x268eb7da else 0xa4bfad3f
        else
         if x < 0xac then
          if x < 0xaa then if x < 0xa9 then 0xe49d3a2c else 0x0d927850 else if x < 0xab then 0x9bcc5f6a else 0x62467e54
         else
          if x < 0xae then if x < 0xad then 0xc2138df6 else 0xe8b8d890 else if x < 0xaf then 0x5ef7392e else 0xf5afc382
       else
        if x < 0xb8 then
         if x < 0xb4 then
          if x < 0xb2 then if x < 0xb1 then 0xbe805d9f else 0x7c93d069 else if x < 0xb3 then 0xa92dd56f else 0xb31225cf
         else
          if x < 0xb6 then if x < 0xb5 then 0x3b99acc8 else 0xa77d1810 else if x < 0xb7 then 0x6e639ce8 else 0x7bbb3bdb
        else
         if x < 0xbc then
          if x < 0xba then if x < 0xb9 then 0x097826cd else 0xf418596e else if x < 0xbb then 0x01b79aec else 0xa89a4f83
         else
          if x < 0xbe then if x < 0xbd then 0x656e95e6 else 0x7ee6ffaa else if x < 0xbf then 0x08cfbc21 else 0xe6e815ef
     else
      if x < 0xe0 then
       if x < 0xd0 then
        if x < 0xc8 then
         if x < 0xc4 then
          if x < 0xc2 then if x < 0xc1 then 0xd99be7ba else 0xce366f4a else if x < 0xc3 then 0xd4099fea else 0xd67cb029
         else
          if x < 0xc6 then if x < 0xc5 then 0xafb2a431 else 0x31233f2a else if x < 0xc7 then 0x3094a5c6 else 0xc066a235
        else
         if x < 0xcc then
          if x < 0xca then if x < 0xc9 then 0x37bc4e74 else 0xa6ca82fc else if x < 0xcb then 0xb0d090e0 else 0x15d8a733
         else
          if x < 0xce then if x < 0xcd then 0x4a9804f1 else 0xf7daec41 else if x < 0xcf then 0x0e50cd7f else 0x2ff69117
       else
        if x < 0xd8 then
         if x < 0xd4 then
          if x < 0xd2 then if x < 0xd1 then 0x8dd64d76 else 0x4db0ef43 else if x < 0xd3 then 0x544daacc else 0xdf0496e4
         else
          if x < 0xd6 then if x < 0xd5 then 0xe3b5d19e else 0x1b886a4c else if x < 0xd7 then 0xb81f2cc1 else 0x7f516546
        else
         if x < 0xdc then
          if x < 0xda then if x < 0xd9 then 0x04ea5e9d else 0x5d358c01 else if x < 0xdb then 0x737487fa else 0x2e410bfb
         else
          if x < 0xde then if x < 0xdd then 0x5a1d67b3 else 0x52d2db92 else if x < 0xdf then 0x335610e9 else 0x1347d66d
      else
       if x < 0xf0 then
        if x < 0xe8 then
         if x < 0xe4 then
          if x < 0xe2 then if x < 0xe1 then 0x8c61d79a else 0x7a0ca137 else if x < 0xe3 then 0x8e14f859 else 0x893c13eb
         else
          if x < 0xe6 then if x < 0xe5 then 0xee27a9ce else 0x35c961b7 else if x < 0xe7 then 0xede51ce1 else 0x3cb1477a
        else
         if x < 0xec then
          if x < 0xea then if x < 0xe9 then 0x59dfd29c else 0x3f73f255 else if x < 0xeb then 0x79ce1418 else 0xbf37c773
         else
          if x < 0xee then if x < 0xed then 0xeacdf753 else 0x5baafd5f else if x < 0xef then 0x146f3ddf else 0x86db4478
       else
        if x < 0xf8 then
         if x < 0xf4 then
          if x < 0xf2 then if x < 0xf1 then 0x81f3afca else 0x3ec468b9 else if x < 0xf3 then 0x2c342438 else 0x5f40a3c2
         else
          if x < 0xf6 then if x < 0xf5 then 0x72c31d16 else 0x0c25e2bc else if x < 0xf7 then 0x8b493c28 else 0x41950dff
        else
         if x < 0xfc then
          if x < 0xfa then if x < 0xf9 then 0x7101a839 else 0xdeb30c08 else if x < 0xfb then 0x9ce4b4d8 else 0x90c15664
         else
          if x < 0xfe then if x < 0xfd then 0x6184cb7b else 0x70b632d5 else if x < 0xff then 0x745c6c48 else 0x4257b8d0
  }

  /** The inverse S-box undoes the S-box. */
  lemma InvSInverts(x: bv8)
    ensures InvS(S(x)) == x
  {
  }

  /** An entry of crypto_ft_tab[0], byte by byte. */
  predicate Ft0Entry(x: bv8) {
    B0(Ft0(x)) == X(S(x)) && B1(Ft0(x)) == S(x) && B2(Ft0(x)) == S(x) && B3(Ft0(x)) == Times3(S(x))
  }

  lemma Ft0From00(x: bv8)
    requires x < 0x20
    ensures Ft0Entry(x)
  {
  }

  lemma Ft0From20(x: bv8)
    requires 0x20 <= x < 0x40
    ensures Ft0Entry(x)
  {
  }

  lemma Ft0From40(x: bv8)
    requires 0x40 <= x < 0x60
    ensures Ft0Entry(x)
  {
  }

  lemma Ft0From60(x: bv8)
    requires 0x60 <= x < 0x80
    ensures Ft0Entry(x)
  {
  }

  lemma Ft0From80(x: bv8)
    requires 0x80 <= x < 0xa0
    ensures Ft0Entry(x)
  {
  }

  lemma Ft0FromA0(x: bv8)
    requires 0xa0 <= x < 0xc0
    ensures Ft0Entry(x)
  {
  }

  lemma Ft0FromC0(x: bv8)
    requires 0xc0 <= x < 0xe0
    ensures Ft0Entry(x)
  {
  }

  lemma Ft0FromE0(x: bv8)
    requires 0xe0 <= x
    ensures Ft0Entry(x)
  {
  }

  lemma Ft0Entries(x: bv8)
    ensures Ft0Entry(x)
  {
    hide Ft0Entry;
    if x < 0x20 {
      Ft0From00(x);
    } else if x < 0x40 {
      Ft0From20(x);
    } else if x < 0x60 {
      Ft0From40(x);
    } else if x < 0x80 {
      Ft0From60(x);
    } else if x < 0xa0 {
      Ft0From80(x);
    } else if x < 0xc0 {
      Ft0FromA0(x);
    } else if x < 0xe0 {
      Ft0FromC0(x);
    } else {
      Ft0FromE0(x);
    }
  }

  /** An entry of crypto_ft_tab[0] is what MixColumns makes of the first byte of a column after SubBytes. */
  lemma Ft0Column(x: bv8)
    ensures Unpack(Ft0(x)) == Col(X(S(x)), S(x), S(x), Times3(S(x)))
  {
    hide Ft0, S, X, Times3, B0, B1, B2, B3;
    Ft0Entries(x);
  }

  /** An entry of crypto_it_tab[0], byte by byte. */
  predicate It0Entry(x: bv8) {
    && B0(It0(x)) == Times14(InvS(x)) && B1(It0(x)) == Times9(InvS(x))
    && B2(It0(x)) == Times13(InvS(x)) && B3(It0(x)) == Times11(InvS(x))
  }

  lemma It0From00(x: bv8)
    requires x < 0x20
    ensures It0Entry(x)
  {
  }

  lemma It0From20(x: bv8)
    requires 0x20 <= x < 0x40
    ensures It0Entry(x)
  {
  }

  lemma It0From40(x: bv8)
    requires 0x40 <= x < 0x60
    ensures It0Entry(x)
  {
  }

  lemma It0From60(x: bv8)
    requires 0x60 <= x < 0x80
    ensures It0Entry(x)
  {
  }

  lemma It0From80(x: bv8)
    requires 0x80 <= x < 0xa0
    ensures It0Entry(x)
  {
  }

  lemma It0FromA0(x: bv8)
    requires 0xa0 <= x < 0xc0
    ensures It0Entry(x)
  {
  }

  lemma It0FromC0(x: bv8)
    requires 0xc0 <= x < 0xe0
    ensures It0Entry(x)
  {
  }

  lemma It0FromE0(x: bv8)
    requires 0xe0 <= x
    ensures It0Entry(x)
  {
  }

  lemma It0Entries(x: bv8)
    ensures It0Entry(x)
  {
    hide It0Entry;
    if x < 0x20 {
      It0From00(x);
    } else if x < 0x40 {
      It0From20(x);
    } else if x < 0x60 {
      It0From40(x);
    } else if x < 0x80 {
      It0From60(x);
    } else if x < 0xa0 {
      It0From80(x);
    } else if x < 0xc0 {
      It0FromA0(x);
    } else if x < 0xe0 {
      It0FromC0(x);
    } else {
      It0FromE0(x);
    }
  }

  /** An entry of crypto_it_tab[0] is what InvMixColumns makes of the first byte of a column after InvSubBytes. */
  lemma It0Column(x: bv8)
    ensures Unpack(It0(x)) == Col(Times14(InvS(x)), Times9(InvS(x)), Times13(InvS(x)), Times11(InvS(x)))
  {
    hide It0, InvS, Times9, Times11, Times13, Times14, B0, B1, B2, B3;
    It0Entries(x);
  }
}
